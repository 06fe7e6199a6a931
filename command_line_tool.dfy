/**
 * cwl/command_line_tool.py: the current CommandLineTool. `Load` models
 * `__init__` after the YAML file is read: the document is validated, the
 * base command, inputs (sorted) and outputs are set, and the tool renders
 * its usage template, its command line and the keyword arguments of the
 * parsl bash app.
 */
module CommandLineTool {
  import opened PyValue
  import opened Arguments
  import opened Ordering
  import opened Resolution
  import opened ToolSchema
  import opened BashApp

  // ------------------------------------------------------------ to_string

  /** The text a non-boolean value renders to, before any prefix. */
  function ValueText(a: InputArgument, v: Value): Result<string>
  {
    var q := if a.typ == STRING then "'" else "";
    if a.isArray then
      match Iterate(v)
      case Failure(e) => Failure(e)
      case Success(items) => Success(Join(ItemSep(a), Quoted(q, items)))
    else Success(q + Str(v) + q)
  }

  /** The value `to_string` renders: a falsy argument gives way to the default. */
  function Chosen(a: InputArgument, inputArg: Value): Value
  {
    if Truthy(inputArg) then inputArg else a.default
  }

  /**
   * `InputArgument.to_string`. A boolean input yields its prefix whatever
   * the value, because the test `if input:` reads the builtin `input`.
   */
  function ToString(a: InputArgument, inputArg: Value): Result<string>
  {
    if a.typ == BOOLEAN then Success(FormatOpt(a.prefix))
    else
      match ValueText(a, Chosen(a, inputArg))
      case Failure(e) => Failure(e)
      case Success(t) => Success(WithPrefix(a, t))
  }

  /** A boolean token never depends on the value, not even on `False`. */
  lemma BooleanIgnoresValue(a: InputArgument, v: Value, w: Value)
    requires a.typ == BOOLEAN
    ensures ToString(a, v) == ToString(a, w) == Success(FormatOpt(a.prefix))
  {
  }

  /** A falsy value (None, 0, "", [], False) renders exactly like the default. */
  lemma FalsyValueUsesDefault(a: InputArgument, v: Value)
    requires !Truthy(v)
    ensures ToString(a, v) == ToString(a, a.default)
  {
  }

  /**
   * `to_string` fails exactly for a non-boolean array input whose value
   * (after the default fallback) is not iterable, and then with TypeError.
   */
  lemma ToStringFailsIff(a: InputArgument, v: Value)
    ensures ToString(a, v).Failure? <==>
      a.typ != BOOLEAN && a.isArray && !(Chosen(a, v).VList? || Chosen(a, v).VStr? || Chosen(a, v).VDict?)
    ensures ToString(a, v).Failure? ==> ToString(a, v).error == TypeError
  {
  }

  lemma ToStringRaisesOnlyTypeError()
    ensures RaisesOnlyTypeError(ToString)
  {
    forall a, v ensures ToString(a, v).Failure? ==> ToString(a, v).error == TypeError {
      ToStringFailsIff(a, v);
    }
  }

  /**
   * A command token fills its usage-template token: take what is inside
   * the template's brackets, and replace the trailing placeholder by the
   * value text; the prefix and its separating space are shared.
   */
  lemma TokenFillsTemplate(a: InputArgument, v: Value)
    requires a.typ != BOOLEAN && ToString(a, v).Success?
    ensures var core := Unbracket(ToStringTemplate(a)).1;
      |Placeholder(a)| <= |core| &&
      ToString(a, v).value == core[..|core| - |Placeholder(a)|] + ValueText(a, Chosen(a, v)).value
  {
    TemplateReadsBack(a);
    var p := Placeholder(a);
    var core := WithPrefix(a, p);
    var t := ValueText(a, Chosen(a, v)).value;
    if OptTruthy(a.prefix) {
      var pre := a.prefix.value + (if a.separate then " " else "");
      assert core == pre + p;
      assert core[..|core| - |p|] == pre;
    } else {
      assert core[..|core| - |p|] == [];
    }
  }

  /** String values are single-quoted, one by one for an array. */
  lemma StringValuesQuoted(a: InputArgument, v: Value)
    requires a.typ == STRING
    ensures !a.isArray ==> ValueText(a, v) == Success("'" + Str(v) + "'")
    ensures a.isArray && v.VList? ==>
      ValueText(a, v).Success? &&
      ValueText(a, v).value == Join(ItemSep(a), Quoted("'", v.items))
  {
  }

  // --------------------------------------------------------- process_input

  /**
   * The non-"array" branch of `process_input`: the type with trailing '['
   * and ']' characters and then trailing '?' characters stripped, whether
   * it contains "[]", and whether it contains "?".
   */
  function ParseTypeString(t: string): (string, bool, bool)
  {
    (RStrip(RStrip(t, {'[', ']'}), {'?'}), Contains(t, "[]"), Contains(t, "?"))
  }

  /** `T`, `T[]` and `T?` parse to the element type `T` with the right flags. */
  lemma TypeSuffixes(T: string)
    requires T != [] && forall k :: 0 <= k < |T| ==> IsLetter(T[k])
    ensures ParseTypeString(T) == (T, false, false)
    ensures ParseTypeString(T + "[]") == (T, true, false)
    ensures ParseTypeString(T + "?") == (T, false, true)
  {
    var br, qm := {'[', ']'}, {'?'};
    RStripUnique(T, br, T);
    RStripUnique(T, qm, T);
    NotContainsFirst(T, "[]");
    NotContainsFirst(T, "?");
    var arr, opt := T + "[]", T + "?";
    RStripUnique(arr, br, T);
    ContainsSuffix(T, "[]");
    NotContainsFirst(arr, "?");
    RStripUnique(opt, br, opt);
    RStripUnique(opt, qm, T);
    ContainsSuffix(T, "?");
    assert forall k :: 0 <= k < |opt| ==> opt[k] != '[';
    NotContainsFirst(opt, "[]");
  }

  /**
   * The suffixes are stripped in a fixed order, brackets first: "T[]?"
   * keeps its brackets in the element type, though both flags are set.
   */
  lemma OptionalArrayKeepsBrackets()
    ensures ParseTypeString("string[]?") == ("string[]", true, true)
  {
    var t := "string[]?";
    RStripUnique(t, {'[', ']'}, t);
    RStripUnique(t, {'?'}, "string[]");
    assert t == "string" + "[]" + "?";
    ContainsSuffix("string[]", "?");
    assert "[]" <= t[6..];
    assert Contains(t[6..], "[]");
    assert t[1..][5..] == t[6..] && t[2..][4..] == t[6..] && t[3..][3..] == t[6..];
    assert t[4..][2..] == t[6..] && t[5..][1..] == t[6..];
  }

  /** The `inputBinding` entries `process_input` reads have the schema's types. */
  predicate BindingTyped(b: seq<(string, Value)>)
  {
    (HasKey(b, "position") ==> Get(b, "position").value.VInt?) &&
    (HasKey(b, "prefix") ==> Get(b, "prefix").value.VStr?) &&
    (HasKey(b, "separate") ==> Get(b, "separate").value.VBool?) &&
    (HasKey(b, "itemSeparator") ==> Get(b, "itemSeparator").value.VStr?)
  }

  /** What `process_input` reads of an input's options, as the validator guarantees it. */
  predicate Processable(opts: seq<(string, Value)>)
  {
    HasKey(opts, "type") &&
    (HasKey(opts, "items") ==> Get(opts, "items").value.VStr?) &&
    (HasKey(opts, "inputBinding") ==> Get(opts, "inputBinding").value.VDict?) &&
    BindingTyped(SubDict(opts, "inputBinding"))
  }

  /** `position`, which the validator only lets through as an int. */
  function BindingPosition(b: seq<(string, Value)>): Option<int>
  {
    match Get(b, "position")
    case Some(VInt(i)) => Some(i)
    case _ => None
  }

  function BindingString(b: seq<(string, Value)>, key: string): Option<string>
  {
    match Get(b, key)
    case Some(VStr(s)) => Some(s)
    case _ => None
  }

  function BindingSeparate(b: seq<(string, Value)>): bool
  {
    match Get(b, "separate")
    case Some(VBool(x)) => x
    case _ => true
  }

  /** The InputArgument built from an input's options once its type is known. */
  function Bound(id: string, typ: string, isArray: bool, optional: bool, opts: seq<(string, Value)>): InputArgument
  {
    var b := SubDict(opts, "inputBinding");
    InputArgument(id, typ, isArray, optional, GetOr(opts, "default", VNone),
      BindingPosition(b), BindingString(b, "prefix"), BindingString(b, "itemSeparator"), BindingSeparate(b))
  }

  /** `process_input(id, input_arg)`. */
  function ProcessInput(id: string, opts: seq<(string, Value)>): (r: Result<InputArgument>)
    requires Processable(opts)
    ensures r.Success? ==> r.value.id == id && r.value.default == GetOr(opts, "default", VNone)
  {
    var t := Get(opts, "type").value;
    if t == VStr("array") then
      if HasKey(opts, "items") then Success(Bound(id, Get(opts, "items").value.s, true, false, opts))
      else Failure(KeyError("items"))
    else if t.VStr? then
      var parsed := ParseTypeString(t.s);
      Success(Bound(id, parsed.0, parsed.1, parsed.2, opts))
    else Failure(AttributeError)   // `.rstrip` on a non-string type
  }

  /**
   * How the type entry decides the element type and the flags: "array"
   * takes the element type from `items` (a KeyError without it); a string
   * type is parsed; any other value raises AttributeError.
   */
  lemma ProcessInputTypes(id: string, opts: seq<(string, Value)>)
    requires Processable(opts)
    ensures var t := Get(opts, "type").value;
      && (t == VStr("array") && !HasKey(opts, "items") ==> ProcessInput(id, opts) == Failure(KeyError("items")))
      && (t == VStr("array") && HasKey(opts, "items") ==>
            ProcessInput(id, opts).Success? && ProcessInput(id, opts).value.typ == Get(opts, "items").value.s &&
            ProcessInput(id, opts).value.isArray && !ProcessInput(id, opts).value.optional)
      && (t.VStr? && t.s != "array" ==>
            ProcessInput(id, opts).Success? &&
            (ProcessInput(id, opts).value.typ, ProcessInput(id, opts).value.isArray, ProcessInput(id, opts).value.optional)
              == ParseTypeString(t.s))
      && (!t.VStr? ==> ProcessInput(id, opts) == Failure(AttributeError))
  {
  }

  /**
   * Every binding field of `a` is the one `process_input` reads from
   * `opts`: with no `inputBinding` there is no position, prefix or item
   * separator and `separate` is true; otherwise each present key gives
   * its value and each absent key gives that same default.
   */
  ghost predicate ReadsBinding(a: InputArgument, opts: seq<(string, Value)>)
    requires Processable(opts)
  {
    && (!HasKey(opts, "inputBinding") ==>
          a.position.None? && a.prefix.None? && a.itemSeparator.None? && a.separate)
    && (HasKey(opts, "inputBinding") ==>
          var b := Get(opts, "inputBinding").value.entries;
          && (Get(b, "position").None? ==> a.position.None?)
          && (Get(b, "position").Some? ==> a.position == Some(Get(b, "position").value.i))
          && (Get(b, "prefix").None? ==> a.prefix.None?)
          && (Get(b, "prefix").Some? ==> a.prefix == Some(Get(b, "prefix").value.s))
          && (Get(b, "itemSeparator").None? ==> a.itemSeparator.None?)
          && (Get(b, "itemSeparator").Some? ==> a.itemSeparator == Some(Get(b, "itemSeparator").value.s))
          && (Get(b, "separate").None? ==> a.separate)
          && (Get(b, "separate").Some? ==> a.separate == Get(b, "separate").value.b))
  }

  /** The binding options land in the argument; an absent binding leaves the defaults. */
  lemma ProcessInputBinding(id: string, opts: seq<(string, Value)>)
    requires Processable(opts) && ProcessInput(id, opts).Success?
    ensures ReadsBinding(ProcessInput(id, opts).value, opts)
  {
    var t := Get(opts, "type").value;
    if t == VStr("array") {
      BoundBinding(id, Get(opts, "items").value.s, true, false, opts);
    } else {
      var parsed := ParseTypeString(t.s);
      BoundBinding(id, parsed.0, parsed.1, parsed.2, opts);
    }
  }

  /** The binding part of an argument, whatever its type. */
  lemma BoundBinding(id: string, typ: string, isArray: bool, optional: bool, opts: seq<(string, Value)>)
    requires Processable(opts)
    ensures ReadsBinding(Bound(id, typ, isArray, optional, opts), opts)
  {
  }

  // ----------------------------------------------------- inputs and outputs

  /** `input_arg["id"]` of a list entry is a string. */
  predicate ListEntryShaped(v: Value)
  {
    v.VDict? && HasKey(v.entries, "id") && Get(v.entries, "id").value.VStr?
  }

  predicate DeclShaped(v: Value)
  {
    match v
    case VList(items) => forall k :: 0 <= k < |items| ==> ListEntryShaped(items[k])
    case VDict(entries) => forall k :: 0 <= k < |entries| ==> entries[k].1.VDict?
    case _ => true
  }

  /**
   * The (id, options) pairs `__set_inputs` and `__set_outputs` visit, in
   * document order: the list form reads each entry's "id"; the mapping form
   * takes the key. Any other value declares nothing.
   */
  function Declared(v: Value): (r: seq<(string, seq<(string, Value)>)>)
    requires DeclShaped(v)
    ensures v.VDict? ==> (|r| == |v.entries| &&
      forall k :: 0 <= k < |r| ==> r[k] == (v.entries[k].0, v.entries[k].1.entries))
    ensures v.VList? ==> (|r| == |v.items| &&
      forall k :: 0 <= k < |r| ==> r[k] == (Get(v.items[k].entries, "id").value.s, v.items[k].entries))
    ensures !v.VDict? && !v.VList? ==> r == []
  {
    match v
    case VList(items) =>
      seq(|items|, k requires 0 <= k < |items| && ListEntryShaped(items[k]) =>
        (Get(items[k].entries, "id").value.s, items[k].entries))
    case VDict(entries) =>
      seq(|entries|, k requires 0 <= k < |entries| && entries[k].1.VDict? =>
        (entries[k].0, entries[k].1.entries))
    case _ => []
  }

  predicate InputsShaped(v: Value)
  {
    DeclShaped(v) && forall k :: 0 <= k < |Declared(v)| ==> Processable(Declared(v)[k].1)
  }

  predicate AllProcessable(decl: seq<(string, seq<(string, Value)>)>)
  {
    forall k :: 0 <= k < |decl| ==> Processable(decl[k].1)
  }

  /** `process_input` applied to one (id, options) pair. */
  function InputProcessor(): ((string, seq<(string, Value)>)) --> Result<InputArgument>
  {
    (p: (string, seq<(string, Value)>)) requires Processable(p.1) => ProcessInput(p.0, p.1)
  }

  /** The processed inputs, in declaration order; the first failure is raised. */
  function ProcessInputs(decl: seq<(string, seq<(string, Value)>)>): Result<seq<InputArgument>>
    requires AllProcessable(decl)
  {
    MapAll(InputProcessor(), decl)
  }

  /**
   * Each declared input is processed on its own: the list is produced
   * exactly when every entry processes, entry by entry; otherwise the
   * error is that of the first entry that fails.
   */
  lemma ProcessInputsPointwise(decl: seq<(string, seq<(string, Value)>)>)
    requires AllProcessable(decl)
    ensures ProcessInputs(decl).Success? <==>
      forall i :: 0 <= i < |decl| ==> ProcessInput(decl[i].0, decl[i].1).Success?
    ensures ProcessInputs(decl).Success? ==> (|ProcessInputs(decl).value| == |decl| &&
      forall i :: 0 <= i < |decl| ==> ProcessInputs(decl).value[i] == ProcessInput(decl[i].0, decl[i].1).value)
    ensures ProcessInputs(decl).Failure? ==>
      exists i :: 0 <= i < |decl| && ProcessInput(decl[i].0, decl[i].1).Failure? &&
        ProcessInputs(decl).error == ProcessInput(decl[i].0, decl[i].1).error &&
        forall j :: 0 <= j < i ==> ProcessInput(decl[j].0, decl[j].1).Success?
  {
    MapAllPointwise(InputProcessor(), decl);
  }

  /** `process_output(id, output_arg)` needs a "type" and a string "items". */
  predicate OutputProcessable(opts: seq<(string, Value)>)
  {
    HasKey(opts, "type") && (HasKey(opts, "items") ==> Get(opts, "items").value.VStr?)
  }

  /** `process_output(id, output_arg)`. */
  function ProcessOutput(id: string, opts: seq<(string, Value)>): (r: Result<OutputArgument>)
    requires OutputProcessable(opts)
    ensures r.Success? ==> r.value.id == id
    ensures Get(opts, "type").value == VStr("array") ==>
      (r.Success? <==> HasKey(opts, "items")) &&
      (r.Success? ==> r.value.typ == Get(opts, "items").value.s && r.value.isArray)
    ensures Get(opts, "type").value.VStr? && Get(opts, "type").value.s != "array" ==>
      r == Success(OutputArgument(id, RStrip(Get(opts, "type").value.s, {'[', ']'}),
                                  Contains(Get(opts, "type").value.s, "[]")))
  {
    var t := Get(opts, "type").value;
    if t == VStr("array") then
      if HasKey(opts, "items") then Success(OutputArgument(id, Get(opts, "items").value.s, true))
      else Failure(KeyError("items"))
    else if t.VStr? then Success(OutputArgument(id, RStrip(t.s, {'[', ']'}), Contains(t.s, "[]")))
    else Failure(AttributeError)
  }

  /** "File[]" declares an array of File outputs, "File" a single one. */
  lemma FileOutputTypes(id: string, opts: seq<(string, Value)>)
    requires OutputProcessable(opts)
    ensures Get(opts, "type").value == VStr("File[]") ==> ProcessOutput(id, opts) == Success(OutputArgument(id, FILE, true))
    ensures Get(opts, "type").value == VStr("File") ==> ProcessOutput(id, opts) == Success(OutputArgument(id, FILE, false))
  {
    RStripUnique("File[]", {'[', ']'}, "File");
    ContainsSuffix("File", "[]");
    RStripUnique("File", {'[', ']'}, "File");
    NotContainsFirst("File", "[]");
  }

  predicate OutputsShaped(v: Value)
  {
    DeclShaped(v) && forall k :: 0 <= k < |Declared(v)| ==> OutputProcessable(Declared(v)[k].1)
  }

  predicate AllOutputProcessable(decl: seq<(string, seq<(string, Value)>)>)
  {
    forall k :: 0 <= k < |decl| ==> OutputProcessable(decl[k].1)
  }

  function OutputProcessor(): ((string, seq<(string, Value)>)) --> Result<OutputArgument>
  {
    (p: (string, seq<(string, Value)>)) requires OutputProcessable(p.1) => ProcessOutput(p.0, p.1)
  }

  function ProcessOutputs(decl: seq<(string, seq<(string, Value)>)>): Result<seq<OutputArgument>>
    requires AllOutputProcessable(decl)
  {
    MapAll(OutputProcessor(), decl)
  }

  /** Each declared output is processed on its own, the first failure winning. */
  lemma ProcessOutputsPointwise(decl: seq<(string, seq<(string, Value)>)>)
    requires AllOutputProcessable(decl)
    ensures ProcessOutputs(decl).Success? <==>
      forall i :: 0 <= i < |decl| ==> ProcessOutput(decl[i].0, decl[i].1).Success?
    ensures ProcessOutputs(decl).Success? ==> (|ProcessOutputs(decl).value| == |decl| &&
      forall i :: 0 <= i < |decl| ==> ProcessOutputs(decl).value[i] == ProcessOutput(decl[i].0, decl[i].1).value)
    ensures ProcessOutputs(decl).Failure? ==>
      exists i :: 0 <= i < |decl| && ProcessOutput(decl[i].0, decl[i].1).Failure? &&
        ProcessOutputs(decl).error == ProcessOutput(decl[i].0, decl[i].1).error &&
        forall j :: 0 <= j < i ==> ProcessOutput(decl[j].0, decl[j].1).Success?
  {
    MapAllPointwise(OutputProcessor(), decl);
  }

  // ------------------------------------------------------------ the document

  /** `" ".join(baseCommand)` for a list, the string itself otherwise. */
  function BaseCommandText(v: Value): string
    requires BaseCommandOk(v)
  {
    if v.VStr? then v.s else Join(" ", Strings(v.items))
  }

  /** What `__set_cwl_args__` reads, in the shape the validator guarantees. */
  predicate Loadable(cwl: Value)
  {
    cwl.VDict? &&
    HasKey(cwl.entries, "baseCommand") && BaseCommandOk(Get(cwl.entries, "baseCommand").value) &&
    HasKey(cwl.entries, "inputs") && InputsShaped(Get(cwl.entries, "inputs").value) &&
    HasKey(cwl.entries, "outputs") && OutputsShaped(Get(cwl.entries, "outputs").value)
  }

  /** The tool's settings: base command, inputs in declaration order, outputs. */
  datatype Config = Config(baseCommand: string, inputs: seq<InputArgument>, outputs: seq<OutputArgument>)

  /** What `__set_cwl_args__` computes; an input error is raised before outputs are read. */
  function Configure(cwl: Value): Result<Config>
    requires Loadable(cwl)
  {
    var base := BaseCommandText(Get(cwl.entries, "baseCommand").value);
    match ProcessInputs(Declared(Get(cwl.entries, "inputs").value))
    case Failure(e) => Failure(e)
    case Success(ins) =>
      match ProcessOutputs(Declared(Get(cwl.entries, "outputs").value))
      case Failure(e) => Failure(e)
      case Success(outs) => Success(Config(base, ins, outs))
  }

  /** A binding whose every entry passes the validator's entry rule has the types `process_input` reads. */
  lemma BindingOkTyped(b: Value)
    requires b.VDict? && forall k :: 0 <= k < |b.entries| ==> BindingEntryOk(b.entries[k])
    ensures BindingTyped(b.entries)
  {
    var keys := ["position", "prefix", "separate", "itemSeparator"];
    forall k | 0 <= k < 4 && HasKey(b.entries, keys[k])
      ensures BindingEntryOk((keys[k], Get(b.entries, keys[k]).value))
    {
      GetEntryHolds(b.entries, keys[k], BindingEntryOk);
    }
    assert keys[0] == "position" && keys[1] == "prefix" && keys[2] == "separate" && keys[3] == "itemSeparator";
  }

  /** Options whose every entry passes `P` (one of the validator's entry rules) are processable. */
  lemma OptionsProcessable(opts: seq<(string, Value)>, P: ((string, Value)) -> bool)
    requires HasKey(opts, "type")
    requires forall k :: 0 <= k < |opts| ==> P(opts[k])
    requires P == InputOptionEntryOk || P == ListInputEntryOk
    ensures Processable(opts)
  {
    if HasKey(opts, "items") {
      GetEntryHolds(opts, "items", P);
    }
    if HasKey(opts, "inputBinding") {
      GetEntryHolds(opts, "inputBinding", P);
      BindingOkTyped(Get(opts, "inputBinding").value);
    }
  }

  lemma InputsOkShaped(v: Value)
    requires InputsOk(v)
    ensures InputsShaped(v)
  {
    if v.VDict? && |v.entries| > 0 &&
       forall k :: 0 <= k < |v.entries| ==> IsIdentifier(v.entries[k].0) && InputOptionsOk(v.entries[k].1) {
      forall k | 0 <= k < |v.entries| ensures Processable(v.entries[k].1.entries) {
        OptionsProcessable(v.entries[k].1.entries, InputOptionEntryOk);
      }
    } else {
      forall k | 0 <= k < |v.items| ensures ListEntryShaped(v.items[k]) && Processable(v.items[k].entries) {
        assert ListInputOk(v.items[k]);
        GetEntryHolds(v.items[k].entries, "id", ListInputEntryOk);
        OptionsProcessable(v.items[k].entries, ListInputEntryOk);
      }
    }
  }

  lemma OutputsOkShaped(v: Value)
    requires OutputsOk(v)
    ensures OutputsShaped(v)
  {
    if v.VDict? && |v.entries| > 0 &&
       forall k :: 0 <= k < |v.entries| ==> IsIdentifier(v.entries[k].0) && OutputOptionsOk(v.entries[k].1) {
      forall k | 0 <= k < |v.entries| ensures OutputProcessable(v.entries[k].1.entries) {
        var opts := v.entries[k].1.entries;
        if HasKey(opts, "items") {
          GetEntryHolds(opts, "items", OutputOptionEntryOk);
        }
      }
    } else {
      forall k | 0 <= k < |v.items| ensures ListEntryShaped(v.items[k]) && OutputProcessable(v.items[k].entries) {
        var opts := v.items[k].entries;
        assert ListOutputOk(v.items[k]);
        GetEntryHolds(opts, "id", ListOutputEntryOk);
        if HasKey(opts, "items") {
          GetEntryHolds(opts, "items", ListOutputEntryOk);
        }
      }
    }
  }

  /** Every document the validator accepts can be read by `__set_cwl_args__` without a KeyError on its own keys. */
  lemma ValidCwlLoadable(cwl: Value)
    requires ValidCwl(cwl)
    ensures Loadable(cwl)
  {
    assert TopLevelKeys[1] == "baseCommand" && TopLevelKeys[3] == "inputs" && TopLevelKeys[4] == "outputs";
    GetEntryHolds(cwl.entries, "baseCommand", TopEntryOk);
    GetEntryHolds(cwl.entries, "inputs", TopEntryOk);
    InputsOkShaped(Get(cwl.entries, "inputs").value);
    GetEntryHolds(cwl.entries, "outputs", TopEntryOk);
    OutputsOkShaped(Get(cwl.entries, "outputs").value);
  }

  /**
   * A document whose inputs use the non-empty list form passes the
   * validator only with list-valued types, on which `process_input` raises
   * AttributeError: such a tool never loads.
   */
  lemma ListFormInputsNeverLoad(cwl: Value)
    requires ValidCwl(cwl)
    requires HasKey(cwl.entries, "inputs")
    requires Get(cwl.entries, "inputs").value.VList? && Get(cwl.entries, "inputs").value.items != []
    ensures Loadable(cwl) && Configure(cwl) == Failure(AttributeError)
  {
    ValidCwlLoadable(cwl);
    GetEntryHolds(cwl.entries, "inputs", TopEntryOk);
    var v := Get(cwl.entries, "inputs").value;
    var decl := Declared(v);
    var opts := v.items[0].entries;
    assert ListInputOk(v.items[0]);
    GetEntryHolds(opts, "type", ListInputEntryOk);
    assert ProcessInput(decl[0].0, decl[0].1) == Failure(AttributeError);
    assert decl[..1][..0] == [];
    MapAllFailurePersists(InputProcessor(), decl, 1);
  }

  // ----------------------------------------------------- the parsl arguments

  /**
   * `__get_parsl_bash_app_args`: the command, then the output checks, then
   * the file lists, which spread the items of File arrays.
   */
  function BashArgs(base: string, ins: seq<InputArgument>, outs: seq<OutputArgument>, kwargs: map<string, Value>): Result<BashAppArgs>
  {
    AppArgs(Command(ToString, base, ins, kwargs), outs, InputSlots(ins, true), OutputSlots(outs, true), kwargs)
  }

  // ------------------------------------------------------------- the class

  class Tool {
    var baseCommand: string
    var inputs: seq<InputArgument>
    var outputs: seq<OutputArgument>

    /** The fields before `__set_cwl_args__` fills them. */
    constructor ()
      ensures baseCommand == "" && inputs == [] && outputs == []
    {
      baseCommand := "";
      inputs := [];
      outputs := [];
    }

    /** The tool holds `c`, with its inputs sorted. */
    ghost predicate Holds(c: Config)
      reads this
    {
      baseCommand == c.baseCommand && outputs == c.outputs &&
      Sorted(inputs) && multiset(inputs) == multiset(c.inputs) && KeepsTies(inputs, c.inputs)
    }

    /** The local list `__set_inputs` extends: every input processed, in order; the first failure is raised. */
    static method CollectInputs(decl: seq<(string, seq<(string, Value)>)>) returns (r: Result<seq<InputArgument>>)
      requires AllProcessable(decl)
      ensures r == ProcessInputs(decl)
    {
      var processed: seq<InputArgument> := [];
      var i := 0;
      while i < |decl|
        invariant 0 <= i <= |decl|
        invariant MapAll(InputProcessor(), decl[..i]) == Success(processed)
      {
        assert decl[..i + 1][..i] == decl[..i];
        var p := ProcessInput(decl[i].0, decl[i].1);
        if p.Failure? {
          MapAllFailurePersists(InputProcessor(), decl, i + 1);
          return Failure(p.error);
        }
        processed := processed + [p.value];
        i := i + 1;
      }
      assert decl[..|decl|] == decl;
      r := Success(processed);
    }

    /** `__set_inputs`: process every input, then sort; nothing is stored on an error. */
    method SetInputs(cwlInputs: Value) returns (err: Option<Error>)
      requires InputsShaped(cwlInputs)
      modifies this`inputs
      ensures ProcessInputs(Declared(cwlInputs)).Failure? ==>
        err == Some(ProcessInputs(Declared(cwlInputs)).error) && inputs == old(inputs)
      ensures ProcessInputs(Declared(cwlInputs)).Success? ==>
        var xs := ProcessInputs(Declared(cwlInputs)).value;
        err.None? && Sorted(inputs) && multiset(inputs) == multiset(xs) && KeepsTies(inputs, xs)
    {
      var r := CollectInputs(Declared(cwlInputs));
      if r.Failure? {
        return Some(r.error);
      }
      inputs := SortInputs(r.value);
      err := None;
    }

    /** The local list `__set_outputs` extends: every output processed, in order; the first failure is raised. */
    static method CollectOutputs(decl: seq<(string, seq<(string, Value)>)>) returns (r: Result<seq<OutputArgument>>)
      requires AllOutputProcessable(decl)
      ensures r == ProcessOutputs(decl)
    {
      var processed: seq<OutputArgument> := [];
      var i := 0;
      while i < |decl|
        invariant 0 <= i <= |decl|
        invariant MapAll(OutputProcessor(), decl[..i]) == Success(processed)
      {
        assert decl[..i + 1][..i] == decl[..i];
        var p := ProcessOutput(decl[i].0, decl[i].1);
        if p.Failure? {
          MapAllFailurePersists(OutputProcessor(), decl, i + 1);
          return Failure(p.error);
        }
        processed := processed + [p.value];
        i := i + 1;
      }
      assert decl[..|decl|] == decl;
      r := Success(processed);
    }

    /** `__set_outputs`: process every output, in declaration order. */
    method SetOutputs(cwlOutputs: Value) returns (err: Option<Error>)
      requires OutputsShaped(cwlOutputs)
      modifies this`outputs
      ensures ProcessOutputs(Declared(cwlOutputs)).Failure? ==>
        err == Some(ProcessOutputs(Declared(cwlOutputs)).error) && outputs == old(outputs)
      ensures ProcessOutputs(Declared(cwlOutputs)).Success? ==>
        err.None? && outputs == ProcessOutputs(Declared(cwlOutputs)).value
    {
      var r := CollectOutputs(Declared(cwlOutputs));
      if r.Failure? {
        return Some(r.error);
      }
      outputs := r.value;
      err := None;
    }

    /** `__set_cwl_args__`. */
    method SetCwlArgs(cwl: Value) returns (err: Option<Error>)
      requires Loadable(cwl)
      modifies this
      ensures Configure(cwl).Failure? ==> err == Some(Configure(cwl).error)
      ensures Configure(cwl).Success? ==> err.None? && Holds(Configure(cwl).value)
    {
      var b := Get(cwl.entries, "baseCommand").value;
      if b.VList? {
        baseCommand := Join(" ", Strings(b.items));
      } else {
        baseCommand := b.s;
      }
      err := SetInputs(Get(cwl.entries, "inputs").value);
      if err.Some? {
        return;
      }
      err := SetOutputs(Get(cwl.entries, "outputs").value);
    }

    /**
     * `__init__` once the YAML is read: a document the validator rejects
     * raises "Invalid Cwl File for Command Line Tools"; otherwise the
     * settings are read, and their first error is raised.
     */
    static method Load(cwl: Value) returns (r: Result<Tool>)
      ensures !ValidCwl(cwl) ==> r == Failure(InvalidCwl)
      ensures ValidCwl(cwl) ==> (Loadable(cwl) &&
        (Configure(cwl).Failure? ==> r == Failure(Configure(cwl).error)) &&
        (Configure(cwl).Success? ==> r.Success? && fresh(r.value) && r.value.Holds(Configure(cwl).value)))
    {
      if !ValidCwl(cwl) {
        return Failure(InvalidCwl);
      }
      ValidCwlLoadable(cwl);
      var t := new Tool();
      var err := t.SetCwlArgs(cwl);
      if err.Some? {
        return Failure(err.value);
      }
      return Success(t);
    }

    /** `command_template`. */
    function CommandTemplate(): string
      reads this
    {
      UsageTemplate(baseCommand, inputs)
    }

    /** `get_command(**kwargs)`. */
    method GetCommand(kwargs: map<string, Value>) returns (r: Result<string>)
      ensures r == Command(ToString, baseCommand, inputs, kwargs)
    {
      var tokens := CollectTokens(ToString, inputs, kwargs);
      match tokens
      case Failure(e) => r := Failure(e);
      case Success(ts) => r := Success(baseCommand + " " + Join(" ", ts));
    }

    /** `__get_parsl_bash_app_args(**kwargs)`. */
    method ParslBashAppArgs(kwargs: map<string, Value>) returns (r: Result<BashAppArgs>)
      ensures r == BashArgs(baseCommand, inputs, outputs, kwargs)
    {
      var command := GetCommand(kwargs);
      r := BuildAppArgs(command, outputs, InputSlots(inputs, true), OutputSlots(outputs, true), kwargs);
    }
  }
}
