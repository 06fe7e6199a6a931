/**
 * The structural rules `CommandLineTool.validate_cwl` of
 * cwl/command_line_tool.py checks, as predicates over a parsed document.
 * The schema library's own machinery (how `Or`, `And` and `Regex` report
 * and aggregate errors) is not modelled; only which documents pass.
 */
module ToolSchema {
  import opened PyValue

  const InputSimpleTypes: seq<string> :=
    ["array", "boolean", "int", "long", "float", "double", "string", "File", "Directory"]

  function Suffixed(suffix: string): (r: seq<string>)
    ensures |r| == |InputSimpleTypes|
    ensures forall k :: 0 <= k < |r| ==> r[k] == InputSimpleTypes[k] + suffix
  {
    seq(|InputSimpleTypes|, k requires 0 <= k < |InputSimpleTypes| => InputSimpleTypes[k] + suffix)
  }

  /** The simple types, and each of them suffixed with "[]" or with "?". */
  const InputTypes: seq<string> := InputSimpleTypes + Suffixed("[]") + Suffixed("?")

  const OutputTypes: seq<string> := ["stdout", "stderr", "File", "File[]", "array"]

  const TopLevelKeys: seq<string> := ["cwlVersion", "baseCommand", "class", "inputs", "outputs"]

  // ------------------------------------------------------- regular expressions

  predicate IsLetter(c: char) { 'a' <= c <= 'z' || 'A' <= c <= 'Z' }
  predicate IsDigit(c: char) { '0' <= c <= '9' }

  /** `[a-zA-Z_][a-zA-Z0-9_]*` matching all of `s`. */
  predicate IdentifierBody(s: string)
  {
    |s| >= 1 && (IsLetter(s[0]) || s[0] == '_') &&
    forall k :: 1 <= k < |s| ==> IsLetter(s[k]) || IsDigit(s[k]) || s[k] == '_'
  }

  /**
   * `^[a-zA-Z_][a-zA-Z0-9_]*$` under `re.search`: `$` also matches just
   * before a final newline, so "abc\n" passes.
   */
  predicate IsIdentifier(s: string)
  {
    IdentifierBody(s) || (|s| >= 2 && s[|s| - 1] == '\n' && IdentifierBody(s[..|s| - 1]))
  }

  function CountDots(t: string): nat
  {
    if t == [] then 0 else (if t[|t| - 1] == '.' then 1 else 0) + CountDots(t[..|t| - 1])
  }

  /** `[0-9]+(\.[0-9]+){0,2}` matching all of `t`. */
  predicate NumberGroups(t: string)
  {
    |t| >= 1 && IsDigit(t[0]) && IsDigit(t[|t| - 1]) &&
    (forall k :: 0 <= k < |t| ==> IsDigit(t[k]) || t[k] == '.') &&
    (forall k :: 0 <= k < |t| - 1 ==> !(t[k] == '.' && t[k + 1] == '.')) &&
    CountDots(t) <= 2
  }

  /** `^v[0-9]+(\.[0-9]+){0,2}$` under `re.search`. */
  predicate IsVersion(s: string)
  {
    (|s| >= 2 && s[0] == 'v' && NumberGroups(s[1..])) ||
    (|s| >= 3 && s[0] == 'v' && s[|s| - 1] == '\n' && NumberGroups(s[1..|s| - 1]))
  }

  // ------------------------------------------------------------ inputs

  /** One entry of an `inputBinding` mapping; a bool is not an int to the schema library. */
  predicate BindingEntryOk(e: (string, Value))
  {
    if e.0 == "position" then e.1.VInt?
    else if e.0 == "prefix" then e.1.VStr?
    else if e.0 == "separate" then e.1.VBool?
    else if e.0 == "itemSeparator" then e.1.VStr?
    else false
  }

  /** `And({position?: int, prefix?: str, separate?: bool, itemSeparator?: str}, len)`. */
  predicate BindingOk(v: Value)
  {
    v.VDict? && |v.entries| > 0 &&
    forall k :: 0 <= k < |v.entries| ==> BindingEntryOk(v.entries[k])
  }

  /** `Or(int, float, str, bool, list)`; floats are not part of this model. */
  predicate DefaultOk(v: Value)
  {
    v.VInt? || v.VBool? || v.VStr? || v.VList?
  }

  predicate IsSimpleTypeName(v: Value)
  {
    v.VStr? && v.s in InputSimpleTypes
  }

  /** An entry shared by both input forms: items, default, inputBinding. */
  predicate InputExtraEntryOk(e: (string, Value))
  {
    if e.0 == "items" then IsSimpleTypeName(e.1)
    else if e.0 == "default" then DefaultOk(e.1)
    else if e.0 == "inputBinding" then BindingOk(e.1)
    else false
  }

  /** One entry of an input's options in the mapping form. */
  predicate InputOptionEntryOk(e: (string, Value))
  {
    if e.0 == "type" then e.1.VStr? && e.1.s in InputTypes else InputExtraEntryOk(e)
  }

  /** The options of one input in the mapping form. */
  predicate InputOptionsOk(v: Value)
  {
    v.VDict? && HasKey(v.entries, "type") &&
    forall k :: 0 <= k < |v.entries| ==> InputOptionEntryOk(v.entries[k])
  }

  /**
   * One input in the list form. Its "type" schema is the plain Python list
   * of simple type names, which the schema library reads as "a list whose
   * every item is one of these": a string type does not pass.
   */
  predicate ListInputEntryOk(e: (string, Value))
  {
    if e.0 == "id" then e.1.VStr? && IsIdentifier(e.1.s)
    else if e.0 == "type" then e.1.VList? && forall j :: 0 <= j < |e.1.items| ==> IsSimpleTypeName(e.1.items[j])
    else InputExtraEntryOk(e)
  }

  predicate ListInputOk(v: Value)
  {
    v.VDict? && HasKey(v.entries, "id") && HasKey(v.entries, "type") &&
    forall k :: 0 <= k < |v.entries| ==> ListInputEntryOk(v.entries[k])
  }

  /**
   * Mapping form: at least one entry (the key pattern is a required key),
   * every key an identifier. List form: every item a valid list input.
   */
  predicate InputsOk(v: Value)
  {
    (v.VDict? && |v.entries| > 0 &&
     forall k :: 0 <= k < |v.entries| ==> IsIdentifier(v.entries[k].0) && InputOptionsOk(v.entries[k].1))
    ||
    (v.VList? && forall k :: 0 <= k < |v.items| ==> ListInputOk(v.items[k]))
  }

  // ----------------------------------------------------------- outputs

  predicate OutputOptionEntryOk(e: (string, Value))
  {
    if e.0 == "type" then e.1.VStr? && e.1.s in OutputTypes
    else if e.0 == "items" then e.1 == VStr("File")
    else if e.0 == "outputBinding" then AnyHolds(e.1)
    else false
  }

  predicate OutputOptionsOk(v: Value)
  {
    v.VDict? && HasKey(v.entries, "type") &&
    forall k :: 0 <= k < |v.entries| ==> OutputOptionEntryOk(v.entries[k])
  }

  predicate ListOutputEntryOk(e: (string, Value))
  {
    if e.0 == "id" then e.1.VStr? && IsIdentifier(e.1.s) else OutputOptionEntryOk(e)
  }

  predicate ListOutputOk(v: Value)
  {
    v.VDict? && HasKey(v.entries, "id") && HasKey(v.entries, "type") &&
    forall k :: 0 <= k < |v.entries| ==> ListOutputEntryOk(v.entries[k])
  }

  predicate OutputsOk(v: Value)
  {
    (v.VDict? && |v.entries| > 0 &&
     forall k :: 0 <= k < |v.entries| ==> IsIdentifier(v.entries[k].0) && OutputOptionsOk(v.entries[k].1))
    ||
    (v.VList? && forall k :: 0 <= k < |v.items| ==> ListOutputOk(v.items[k]))
  }

  // ---------------------------------------------------------- document

  predicate BaseCommandOk(v: Value)
  {
    v.VStr? || (v.VList? && AllStrings(v.items))
  }

  /**
   * One top-level entry. Keys beyond the five named ones are accepted by
   * `Optional(any): any`: the key must be a non-empty string and the value
   * must make the builtin `any` true.
   */
  predicate TopEntryOk(e: (string, Value))
  {
    if e.0 == "cwlVersion" then e.1.VStr? && IsVersion(e.1.s)
    else if e.0 == "baseCommand" then BaseCommandOk(e.1)
    else if e.0 == "class" then e.1 == VStr("CommandLineTool")
    else if e.0 == "inputs" then InputsOk(e.1)
    else if e.0 == "outputs" then OutputsOk(e.1)
    else e.0 != "" && AnyHolds(e.1)
  }

  /** `validate_cwl` accepts the document. */
  predicate ValidCwl(doc: Value)
  {
    doc.VDict? &&
    (forall k :: 0 <= k < |TopLevelKeys| ==> HasKey(doc.entries, TopLevelKeys[k])) &&
    forall k :: 0 <= k < |doc.entries| ==> TopEntryOk(doc.entries[k])
  }

  // -------------------------------------------------------- properties

  /** `d[key]` is one of the entries of `d`, so whatever holds of every entry holds of it. */
  lemma GetEntryHolds(entries: seq<(string, Value)>, key: string, P: ((string, Value)) -> bool)
    requires HasKey(entries, key)
    requires forall k :: 0 <= k < |entries| ==> P(entries[k])
    ensures P((key, Get(entries, key).value))
  {
    var k :| 0 <= k < |entries| && entries[k] == (key, Get(entries, key).value);
    assert P(entries[k]);
  }

  /** Some input, in either form, declares `inputBinding: {}`. */
  predicate DeclaresEmptyBinding(inputs: Value)
  {
    (inputs.VDict? && exists k | 0 <= k < |inputs.entries| ::
       inputs.entries[k].1.VDict? && ("inputBinding", VDict([])) in inputs.entries[k].1.entries)
    ||
    (inputs.VList? && exists k | 0 <= k < |inputs.items| ::
       inputs.items[k].VDict? && ("inputBinding", VDict([])) in inputs.items[k].entries)
  }

  lemma EmptyBindingNotOk(inputs: Value)
    requires DeclaresEmptyBinding(inputs)
    ensures !InputsOk(inputs)
  {
  }

  /** An empty binding is refused: the binding schema is `And(..., len)`. */
  lemma EmptyBindingRejected(doc: Value)
    requires doc.VDict? && HasKey(doc.entries, "inputs")
    requires DeclaresEmptyBinding(Get(doc.entries, "inputs").value)
    ensures !ValidCwl(doc)
  {
    EmptyBindingNotOk(Get(doc.entries, "inputs").value);
    if ValidCwl(doc) {
      GetEntryHolds(doc.entries, "inputs", TopEntryOk);
    }
  }

  /**
   * A valid document stays valid when a key other than the five named ones
   * is added, provided the key is non-empty and the value makes `any` true;
   * with a value for which `any` is false it becomes invalid.
   */
  lemma ExtraKeyAccepted(doc: Value, key: string, v: Value)
    requires ValidCwl(doc)
    requires key !in TopLevelKeys
    ensures ValidCwl(VDict(doc.entries + [(key, v)])) <==> key != "" && AnyHolds(v)
  {
    var d := VDict(doc.entries + [(key, v)]);
    forall k | 0 <= k < |TopLevelKeys|
      ensures HasKey(d.entries, TopLevelKeys[k])
    {
      var name := TopLevelKeys[k];
      assert HasKey(doc.entries, name);
      var j :| 0 <= j < |doc.entries| && doc.entries[j].0 == name;
      assert d.entries[j] == doc.entries[j];
    }
    assert d.entries[|doc.entries|] == (key, v);
    if key != "" && AnyHolds(v) {
      forall k | 0 <= k < |d.entries| ensures TopEntryOk(d.entries[k]) {
        if k < |doc.entries| {
          assert d.entries[k] == doc.entries[k];
        }
      }
    }
  }

  /** The identifier pattern, on a few ids. */
  lemma IdentifierExamples()
    ensures IsIdentifier("maxdepth") && IsIdentifier("_x1") && IsIdentifier("dir\n")
    ensures !IsIdentifier("1x") && !IsIdentifier("a-b") && !IsIdentifier("") && !IsIdentifier("a\n\n")
  {
    assert !IdentifierBody("a\n") by { assert "a\n"[1] == '\n'; }
    assert !IdentifierBody("a-b") by { assert "a-b"[1] == '-'; }
    assert !IdentifierBody("a\n\n") by { assert "a\n\n"[1] == '\n'; }
    assert ("a\n\n")[..2] == "a\n";
    assert ("dir\n")[..3] == "dir";
  }

  /** The version pattern allows one to three dot-separated numbers after "v". */
  lemma VersionExamples()
    ensures IsVersion("v1.0") && IsVersion("v1") && IsVersion("v1.2.3") && IsVersion("v1.0\n")
    ensures !IsVersion("v1.2.3.4") && !IsVersion("1.0") && !IsVersion("v1..0") && !IsVersion("v")
  {
    assert ("v1.0")[1..] == "1.0" && ("v1.0\n")[1..4] == "1.0";
    assert "1.0"[..2] == "1." && "1."[..1] == "1" && "1"[..0] == [];
    assert CountDots("1.0") == 1;
    assert ("v1")[1..] == "1";
    assert ("v1.2.3")[1..] == "1.2.3";
    assert "1.2.3"[..4] == "1.2." && "1.2."[..3] == "1.2" && "1.2"[..2] == "1.";
    assert CountDots("1.2.3") == 2;
    assert ("v1.2.3.4")[1..] == "1.2.3.4";
    assert "1.2.3.4"[..6] == "1.2.3." && "1.2.3."[..5] == "1.2.3";
    assert CountDots("1.2.3.4") == 3;
    assert ("v1..0")[1..] == "1..0";
    assert "1..0"[1] == '.' && "1..0"[2] == '.';
    assert "v1.2.3.4"[8 - 1] != '\n';
    assert "v1..0"[4] != '\n';
  }
}
