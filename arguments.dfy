/**
 * The per-argument records of the binding engine and the parts that every
 * revision of the engine shares: the usage-template token of an input
 * (`to_string_template`, written identically in cwl/command_line_tool.py,
 * cwl/cwl.py and cwl.py), the `__lt__` comparator of the two newer
 * revisions, and the order that comparator sorts by.
 */
module Arguments {
  import opened PyValue

  const BOOLEAN := "boolean"
  const STRING := "string"
  const FILE := "File"

  /** One bindable input of a tool, after its options have been read. */
  datatype InputArgument = InputArgument(
    id: string,
    typ: string,                   // element type: "string", "int", "File", ...
    isArray: bool,
    optional: bool,
    default: Value,                // VNone when the document gives no default
    position: Option<int>,
    prefix: Option<string>,
    itemSeparator: Option<string>,
    separate: bool)

  /** One declared output: `Output(id, type, array)`. */
  datatype OutputArgument = OutputArgument(id: string, typ: string, isArray: bool)

  /** `self.item_separator if self.item_separator else " "`. */
  function ItemSep(a: InputArgument): (r: string)
    ensures r != ""
    ensures OptTruthy(a.itemSeparator) ==> r == a.itemSeparator.value
  {
    if OptTruthy(a.itemSeparator) then a.itemSeparator.value else " "
  }

  /** Prepends the prefix when it is truthy, with one space iff `separate`. */
  function WithPrefix(a: InputArgument, s: string): string
  {
    if OptTruthy(a.prefix) then a.prefix.value + (if a.separate then " " else "") + s else s
  }

  /** The placeholder `<id>`, or `<id_1 S...S id_n>` for an array. */
  function Placeholder(a: InputArgument): string
  {
    if a.isArray then "<" + a.id + "_1" + ItemSep(a) + "..." + ItemSep(a) + a.id + "_n>"
    else "<" + a.id + ">"
  }

  /** `to_string_template`: the usage token of one input. */
  function ToStringTemplate(a: InputArgument): string
  {
    if a.typ == BOOLEAN then "[" + FormatOpt(a.prefix) + "]"
    else
      var core := WithPrefix(a, Placeholder(a));
      if a.optional then "[" + core + "]" else core
  }

  /** A usage token read back: whether it is bracketed, and what is inside. */
  function Unbracket(t: string): (bool, string)
  {
    if |t| >= 2 && t[0] == '[' && t[|t| - 1] == ']' then (true, t[1..|t| - 1]) else (false, t)
  }

  /**
   * A boolean's token is its prefix in brackets, whatever else it declares;
   * any other token, read back, says whether the input is optional, and
   * what is inside the brackets is the (prefix and) placeholder.
   */
  lemma TemplateReadsBack(a: InputArgument)
    ensures a.typ == BOOLEAN ==> ToStringTemplate(a) == "[" + FormatOpt(a.prefix) + "]"
    ensures a.typ != BOOLEAN ==>
      Unbracket(ToStringTemplate(a)) == (a.optional, WithPrefix(a, Placeholder(a)))
  {
    var core := WithPrefix(a, Placeholder(a));
    assert core[|core| - 1] == '>';
    if a.typ != BOOLEAN && a.optional {
      var t := "[" + core + "]";
      assert t[1..|t| - 1] == core;
    }
  }

  /**
   * Inside the brackets, the placeholder ends the token and the prefix,
   * when truthy, starts it, followed by one space iff `separate`.
   */
  lemma TemplateCoreParts(a: InputArgument)
    ensures EndsWith(WithPrefix(a, Placeholder(a)), Placeholder(a))
    ensures OptTruthy(a.prefix) ==>
      a.prefix.value + (if a.separate then " " else "") <= WithPrefix(a, Placeholder(a))
    ensures !OptTruthy(a.prefix) ==> WithPrefix(a, Placeholder(a)) == Placeholder(a)
  {
    var p := Placeholder(a);
    var c := WithPrefix(a, p);
    assert c[|c| - |p|..] == p;
  }

  /** The usage tokens of `xs`, in list order. */
  function TemplateTokens(xs: seq<InputArgument>): (r: seq<string>)
    ensures |r| == |xs| && forall k :: 0 <= k < |xs| ==> r[k] == ToStringTemplate(xs[k])
  {
    seq(|xs|, k requires 0 <= k < |xs| => ToStringTemplate(xs[k]))
  }

  /**
   * `command_template`, the same in the three class-based revisions: a
   * header line, the base command, one space, then the usage tokens of the
   * stored inputs separated by single spaces.
   */
  function UsageTemplate(base: string, xs: seq<InputArgument>): (r: string)
    ensures "COMMAND TEMPLATE:\n" + base + " " <= r
    ensures xs == [] ==> r == "COMMAND TEMPLATE:\n" + base + " "
  {
    assert xs == [] ==> Join(" ", TemplateTokens(xs)) == "";
    "COMMAND TEMPLATE:\n" + base + " " + Join(" ", TemplateTokens(xs))
  }

  /** Each further input adds a separating space (none for the first) and its own token, at the end. */
  lemma UsageTemplateAppend(base: string, xs: seq<InputArgument>, x: InputArgument)
    ensures UsageTemplate(base, xs + [x]) ==
      UsageTemplate(base, xs) + (if xs == [] then "" else " ") + ToStringTemplate(x)
  {
    assert TemplateTokens(xs + [x]) == TemplateTokens(xs) + [ToStringTemplate(x)];
    if xs != [] {
      JoinAppend(" ", TemplateTokens(xs), ToStringTemplate(x));
    } else {
      assert TemplateTokens([x]) == [ToStringTemplate(x)];
    }
  }

  // ----------------------------------------------------------- ordering

  /** `InputArgument.__lt__` of cwl/command_line_tool.py and cwl/cwl.py. */
  predicate Lt(a: InputArgument, b: InputArgument)
  {
    if a.position.None? && b.position.None? then true
    else if a.position.None? then false
    else if b.position.None? then true
    else a.position.value < b.position.value
  }

  /**
   * The order the engine sorts inputs into: positioned inputs by position,
   * then every unpositioned input; unpositioned inputs are all equivalent.
   */
  predicate Before(a: InputArgument, b: InputArgument)
  {
    match (a.position, b.position)
    case (Some(p), Some(q)) => p <= q
    case (Some(_), None) => true
    case (None, Some(_)) => false
    case (None, None) => true
  }

  predicate Sorted(xs: seq<InputArgument>)
  {
    forall i, j :: 0 <= i < j < |xs| ==> Before(xs[i], xs[j])
  }

  /**
   * What `__lt__` answers agrees with `Before`: a "less" answer means the
   * first may precede the second, a "not less" answer that the second may
   * precede the first. Two unpositioned inputs are "less" both ways.
   */
  lemma LtAgreesWithBefore(a: InputArgument, b: InputArgument)
    ensures Lt(a, b) ==> Before(a, b)
    ensures !Lt(a, b) ==> Before(b, a)
    ensures a.position.None? && b.position.None? ==> Lt(a, b) && Lt(b, a)
  {
  }

  lemma BeforeTransitive(a: InputArgument, b: InputArgument, c: InputArgument)
    requires Before(a, b) && Before(b, c)
    ensures Before(a, c)
  {
  }

  /**
   * A sorted input list puts every positioned input ahead of every
   * unpositioned one, and the positioned ones in non-decreasing order.
   */
  lemma SortedMeansPositionOrder(xs: seq<InputArgument>, i: int, j: int)
    requires Sorted(xs) && 0 <= i < j < |xs|
    ensures xs[j].position.Some? ==> xs[i].position.Some?
    ensures xs[i].position.Some? && xs[j].position.Some? ==>
      xs[i].position.value <= xs[j].position.value
  {
    assert Before(xs[i], xs[j]);
  }
}
