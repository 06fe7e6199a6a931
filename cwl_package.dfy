/**
 * cwl/cwl.py: the revision of the CommandLineTool before the current one.
 * It shares the usage template, the comparator, the sort and the
 * resolution loop with the current revision, and differs from it in how a
 * string array is quoted, in parsing every type as a string (there is no
 * "array"/"items" form), in its validator, in reading outputs as
 * (id, type) pairs from the mapping form only, and in listing File values
 * without spreading arrays.
 */
module CwlPackage {
  import opened PyValue
  import opened Arguments
  import opened Ordering
  import opened Resolution
  import opened BashApp
  import TS = ToolSchema
  import CLT = CommandLineTool

  // ------------------------------------------------------------ to_string

  /** The text a non-boolean value renders to: an array is joined with `q + sep + q`. */
  function ValueText(a: InputArgument, v: Value): Result<string>
  {
    var q := if a.typ == STRING then "'" else "";
    if a.isArray then JoinValue(q + ItemSep(a) + q, v) else Success(q + Str(v) + q)
  }

  /** `__InputArgument.to_string`. */
  function ToString(a: InputArgument, inputArg: Value): Result<string>
  {
    if a.typ == BOOLEAN then Success(FormatOpt(a.prefix))
    else
      match ValueText(a, CLT.Chosen(a, inputArg))
      case Failure(e) => Failure(e)
      case Success(t) => Success(WithPrefix(a, t))
  }

  /**
   * Booleans and non-array inputs render exactly as in the current
   * revision: a boolean gives its prefix whatever the value, and a falsy
   * value gives way to the default.
   */
  lemma RendersAsCurrentUnlessArray(a: InputArgument, v: Value)
    requires a.typ == BOOLEAN || !a.isArray
    ensures ToString(a, v) == CLT.ToString(a, v)
    ensures a.typ == BOOLEAN ==> ToString(a, v) == Success(FormatOpt(a.prefix))
    ensures !Truthy(v) ==> ToString(a, v) == ToString(a, a.default)
  {
  }

  /**
   * A string array of strings is joined with `'sep'`, so there is no quote
   * before its first item or after its last; the current revision quotes
   * every item, and the two texts differ by exactly those outer quotes.
   */
  lemma {:induction false} StringArrayLacksOuterQuotes(a: InputArgument, v: Value)
    requires a.typ == STRING && a.isArray && v.VList? && v.items != [] && AllStrings(v.items)
    ensures ValueText(a, v) == Success(Join("'" + ItemSep(a) + "'", Strings(v.items)))
    ensures CLT.ValueText(a, v) == Success("'" + ValueText(a, v).value + "'")
  {
    JoinQuoted(ItemSep(a), "'", v.items);
  }

  /** `["a", "b"]` with separator "," renders as `a','b` here and as `'a','b'` in the current revision. */
  lemma StringArrayExample(a: InputArgument)
    requires a.typ == STRING && a.isArray && a.itemSeparator == Some(",")
    ensures ValueText(a, VList([VStr("a"), VStr("b")])) == Success("a','b")
    ensures CLT.ValueText(a, VList([VStr("a"), VStr("b")])) == Success("'a','b'")
  {
    var xs := [VStr("a"), VStr("b")];
    StringArrayLacksOuterQuotes(a, VList(xs));
    assert ItemSep(a) == ",";
    assert Strings(xs) == ["a", "b"];
    assert ["a", "b"][..1] == ["a"];
    assert Join("','", ["a", "b"]) == "a" + "','" + "b";
    assert "'" + ItemSep(a) + "'" == "','";
    assert "a" + "','" + "b" == "a','b";
    assert ValueText(a, VList(xs)) == Success("a','b");
    assert "'" + "a','b" + "'" == "'a','b'";
  }

  /**
   * An array is handed to `str.join` as it is, so every item must be a
   * string: an int array that the current revision renders raises
   * TypeError here. A non-string array of strings renders as in the
   * current revision.
   */
  lemma ArrayItemsMustBeStrings(a: InputArgument, v: Value)
    requires a.isArray && v.VList?
    ensures ValueText(a, v).Success? <==> AllStrings(v.items)
    ensures ValueText(a, v).Failure? ==> ValueText(a, v).error == TypeError
    ensures a.typ != STRING && AllStrings(v.items) ==> ValueText(a, v) == CLT.ValueText(a, v)
  {
    if a.typ != STRING && AllStrings(v.items) {
      forall k | 0 <= k < |v.items| ensures Quoted("", v.items)[k] == Strings(v.items)[k] {
        assert Str(v.items[k]) == v.items[k].s;
      }
      assert Quoted("", v.items) == Strings(v.items);
      assert "" + ItemSep(a) + "" == ItemSep(a);
    }
  }

  lemma ToStringRaisesOnlyTypeError()
    ensures RaisesOnlyTypeError(ToString)
  {
    forall a, v ensures ToString(a, v).Failure? ==> ToString(a, v).error == TypeError {
      if a.typ != BOOLEAN && a.isArray {
        var c := CLT.Chosen(a, v);
        assert JoinValue(ItemSep(a), c).Failure? ==> JoinValue(ItemSep(a), c).error == TypeError;
      }
    }
  }

  // --------------------------------------------------------- __set_inputs

  /** What `__set_inputs` reads of one input's options: a string type and a typed binding. */
  predicate Processable(opts: seq<(string, Value)>)
  {
    HasKey(opts, "type") && Get(opts, "type").value.VStr? &&
    (HasKey(opts, "inputBinding") ==> Get(opts, "inputBinding").value.VDict?) &&
    CLT.BindingTyped(SubDict(opts, "inputBinding"))
  }

  /** One turn of the `__set_inputs` loop: the type string is always parsed, "array" included. */
  function ProcessInput(id: string, opts: seq<(string, Value)>): InputArgument
    requires Processable(opts)
  {
    var parsed := CLT.ParseTypeString(Get(opts, "type").value.s);
    CLT.Bound(id, parsed.0, parsed.1, parsed.2, opts)
  }

  /**
   * Except for the type "array", an input is read exactly as the current
   * revision reads it; "array" is taken for an element type named
   * "array", neither an array nor optional, and its `items` are ignored.
   */
  lemma ProcessInputAgainstCurrent(id: string, opts: seq<(string, Value)>)
    requires Processable(opts) && CLT.Processable(opts)
    ensures Get(opts, "type").value != VStr("array") ==> CLT.ProcessInput(id, opts) == Success(ProcessInput(id, opts))
    ensures Get(opts, "type").value == VStr("array") ==>
      var a := ProcessInput(id, opts);
      a.typ == "array" && !a.isArray && !a.optional
  {
    if Get(opts, "type").value == VStr("array") {
      var t := "array";
      assert forall k :: 0 <= k < |t| ==> t[k] !in {'[', ']', '?'};
      RStripUnique(t, {'[', ']'}, t);
      RStripUnique(t, {'?'}, t);
      NotContainsFirst(t, "[]");
      NotContainsFirst(t, "?");
    }
  }

  predicate AllProcessable(decl: seq<(string, seq<(string, Value)>)>)
  {
    forall k :: 0 <= k < |decl| ==> Processable(decl[k].1)
  }

  /** The inputs in declaration order; reading them cannot fail once the validator has passed them. */
  function ProcessInputs(decl: seq<(string, seq<(string, Value)>)>): (r: seq<InputArgument>)
    requires AllProcessable(decl)
    ensures |r| == |decl| && forall k :: 0 <= k < |decl| ==> r[k] == ProcessInput(decl[k].0, decl[k].1)
  {
    seq(|decl|, k requires 0 <= k < |decl| && AllProcessable(decl) => ProcessInput(decl[k].0, decl[k].1))
  }

  predicate InputsShaped(v: Value)
  {
    CLT.DeclShaped(v) && AllProcessable(CLT.Declared(v))
  }

  // -------------------------------------------------------- __set_outputs

  /** The mapping form's options carry a string "type". */
  predicate OutputsShaped(v: Value)
  {
    v.VDict? ==>
      forall k :: 0 <= k < |v.entries| ==>
        v.entries[k].1.VDict? && HasKey(v.entries[k].1.entries, "type") &&
        Get(v.entries[k].1.entries, "type").value.VStr?
  }

  /** The `Output(id, type)` pair of one mapping entry; there is no array flag. */
  function OutputPair(e: (string, Value)): OutputArgument
    requires e.1.VDict? && HasKey(e.1.entries, "type") && Get(e.1.entries, "type").value.VStr?
  {
    OutputArgument(e.0, Get(e.1.entries, "type").value.s, false)
  }

  /**
   * `__set_outputs`: one pair per entry of the mapping form. The list form
   * indexes the list itself with "id", a TypeError as soon as there is an
   * entry; any other value declares nothing.
   */
  function ProcessOutputs(v: Value): Result<seq<OutputArgument>>
    requires OutputsShaped(v)
  {
    match v
    case VList(items) => if items == [] then Success([]) else Failure(TypeError)
    case VDict(entries) =>
      Success(seq(|entries|, k requires 0 <= k < |entries| && OutputsShaped(v) => OutputPair(entries[k])))
    case _ => Success([])
  }

  /** An output type without bracket characters is read as the current revision reads it. */
  lemma {:induction false} PlainOutputType(id: string, opts: seq<(string, Value)>)
    requires CLT.OutputProcessable(opts)
    requires Get(opts, "type").value.VStr? && Get(opts, "type").value.s != "array"
    requires forall k :: 0 <= k < |Get(opts, "type").value.s| ==> Get(opts, "type").value.s[k] !in {'[', ']'}
    ensures CLT.ProcessOutput(id, opts) == Success(OutputArgument(id, Get(opts, "type").value.s, false))
  {
    var t := Get(opts, "type").value.s;
    RStripUnique(t, {'[', ']'}, t);
    if t == [] {
      assert !Contains(t, "[]");
    } else {
      NotContainsFirst(t, "[]");
    }
  }

  /**
   * On the mapping form with the types this validator allows (stdout,
   * stderr, File), the outputs are those the current revision reads; on a
   * non-empty list form the current revision reads (id, type) from each
   * entry, while this one raises TypeError.
   */
  lemma OutputsAgainstCurrent(v: Value)
    requires OutputsShaped(v) && CLT.OutputsShaped(v)
    requires v.VDict? ==> forall k :: 0 <= k < |v.entries| ==> OutputTypeOk(Get(v.entries[k].1.entries, "type").value)
    ensures v.VDict? ==> CLT.ProcessOutputs(CLT.Declared(v)) == ProcessOutputs(v)
    ensures v.VList? && v.items != [] ==> ProcessOutputs(v) == Failure(TypeError)
  {
    if v.VDict? {
      var decl := CLT.Declared(v);
      forall k | 0 <= k < |decl|
        ensures CLT.ProcessOutput(decl[k].0, decl[k].1) == Success(OutputPair(v.entries[k]))
      {
        var t := Get(decl[k].1, "type").value.s;
        assert t == "stdout" || t == "stderr" || t == "File";
        assert forall j :: 0 <= j < |t| ==> t[j] !in {'[', ']'};
        PlainOutputType(decl[k].0, decl[k].1);
      }
      CLT.ProcessOutputsPointwise(decl);
      assert CLT.ProcessOutputs(decl).value == ProcessOutputs(v).value;
    }
  }

  // ------------------------------------------------------------ validation

  /** `Schema({position?: int, prefix?: str, separate?: bool, itemSeparator?: str})`: `{}` passes. */
  predicate BindingOk(v: Value)
  {
    v.VDict? && forall k :: 0 <= k < |v.entries| ==> TS.BindingEntryOk(v.entries[k])
  }

  /** One entry of an input's options in the mapping form: `type: str`, `default?: any`, `inputBinding?`. */
  predicate InputOptionEntryOk(e: (string, Value))
  {
    if e.0 == "type" then e.1.VStr?
    else if e.0 == "default" then AnyHolds(e.1)
    else if e.0 == "inputBinding" then BindingOk(e.1)
    else false
  }

  predicate InputOptionsOk(v: Value)
  {
    v.VDict? && HasKey(v.entries, "type") &&
    forall k :: 0 <= k < |v.entries| ==> InputOptionEntryOk(v.entries[k])
  }

  /**
   * One entry of an input in the list form: `id: str`, `type: str`, a
   * default of any (non-float) value, and the same binding.
   */
  predicate ListInputEntryOk(e: (string, Value))
  {
    if e.0 == "id" then e.1.VStr?
    else if e.0 == "type" then e.1.VStr?
    else if e.0 == "default" then true
    else if e.0 == "inputBinding" then BindingOk(e.1)
    else false
  }

  predicate ListInputOk(v: Value)
  {
    v.VDict? && HasKey(v.entries, "id") && HasKey(v.entries, "type") &&
    forall k :: 0 <= k < |v.entries| ==> ListInputEntryOk(v.entries[k])
  }

  /** A non-empty mapping of input options, or a non-empty list of inputs. */
  predicate InputsOk(v: Value)
  {
    (v.VDict? && |v.entries| > 0 && forall k :: 0 <= k < |v.entries| ==> InputOptionsOk(v.entries[k].1)) ||
    (v.VList? && |v.items| > 0 && forall k :: 0 <= k < |v.items| ==> ListInputOk(v.items[k]))
  }

  predicate OutputTypeOk(v: Value)
  {
    v == VStr("stdout") || v == VStr("stderr") || v == VStr("File")
  }

  /** The options of one output in the mapping form: exactly a `type`. */
  predicate OutputOptionsOk(v: Value)
  {
    v.VDict? && HasKey(v.entries, "type") &&
    forall k :: 0 <= k < |v.entries| ==> v.entries[k].0 == "type" && OutputTypeOk(v.entries[k].1)
  }

  predicate ListOutputEntryOk(e: (string, Value))
  {
    if e.0 == "id" then e.1.VStr?
    else if e.0 == "type" then OutputTypeOk(e.1)
    else false
  }

  predicate ListOutputOk(v: Value)
  {
    v.VDict? && HasKey(v.entries, "id") && HasKey(v.entries, "type") &&
    forall k :: 0 <= k < |v.entries| ==> ListOutputEntryOk(v.entries[k])
  }

  predicate OutputsOk(v: Value)
  {
    (v.VDict? && |v.entries| > 0 && forall k :: 0 <= k < |v.entries| ==> OutputOptionsOk(v.entries[k].1)) ||
    (v.VList? && |v.items| > 0 && forall k :: 0 <= k < |v.items| ==> ListOutputOk(v.items[k]))
  }

  /** One top-level entry; a key other than the five named ones is refused. */
  predicate TopEntryOk(e: (string, Value))
  {
    if e.0 == "cwlVersion" then e.1.VStr?
    else if e.0 == "baseCommand" then TS.BaseCommandOk(e.1)
    else if e.0 == "class" then e.1 == VStr("CommandLineTool")
    else if e.0 == "inputs" then InputsOk(e.1)
    else if e.0 == "outputs" then OutputsOk(e.1)
    else false
  }

  /** `validate_cwl` accepts the document; "outputs" may be left out. */
  predicate ValidCwl(doc: Value)
  {
    doc.VDict? &&
    HasKey(doc.entries, "cwlVersion") && HasKey(doc.entries, "baseCommand") &&
    HasKey(doc.entries, "class") && HasKey(doc.entries, "inputs") &&
    forall k :: 0 <= k < |doc.entries| ==> TopEntryOk(doc.entries[k])
  }

  /** Unlike the current revision's validator, this one refuses any key it does not name. */
  lemma ExtraKeyRefused(doc: Value, key: string, v: Value)
    requires doc.VDict?
    requires key !in ["cwlVersion", "baseCommand", "class", "inputs", "outputs"]
    ensures !ValidCwl(VDict(doc.entries + [(key, v)]))
  {
    var es := doc.entries + [(key, v)];
    assert !TopEntryOk(es[|es| - 1]);
  }

  /** Every binding the current validator accepts passes here, and so does the empty binding it refuses. */
  lemma BindingRuleWeaker(b: Value)
    ensures TS.BindingOk(b) ==> BindingOk(b)
    ensures BindingOk(VDict([])) && !TS.BindingOk(VDict([]))
  {
  }

  /** What `__set_cwl_args__` reads, in the shape the validator guarantees. */
  predicate Loadable(cwl: Value)
  {
    cwl.VDict? &&
    HasKey(cwl.entries, "baseCommand") && TS.BaseCommandOk(Get(cwl.entries, "baseCommand").value) &&
    HasKey(cwl.entries, "inputs") && InputsShaped(Get(cwl.entries, "inputs").value) &&
    (HasKey(cwl.entries, "outputs") ==> OutputsShaped(Get(cwl.entries, "outputs").value))
  }

  lemma OptionsProcessable(opts: seq<(string, Value)>, P: ((string, Value)) -> bool)
    requires HasKey(opts, "type")
    requires forall k :: 0 <= k < |opts| ==> P(opts[k])
    requires P == InputOptionEntryOk || P == ListInputEntryOk
    ensures Processable(opts)
  {
    TS.GetEntryHolds(opts, "type", P);
    if HasKey(opts, "inputBinding") {
      TS.GetEntryHolds(opts, "inputBinding", P);
      CLT.BindingOkTyped(Get(opts, "inputBinding").value);
    }
  }

  lemma InputsOkShaped(v: Value)
    requires InputsOk(v)
    ensures InputsShaped(v)
  {
    if v.VDict? && |v.entries| > 0 && forall k :: 0 <= k < |v.entries| ==> InputOptionsOk(v.entries[k].1) {
      forall k | 0 <= k < |v.entries| ensures Processable(v.entries[k].1.entries) {
        OptionsProcessable(v.entries[k].1.entries, InputOptionEntryOk);
      }
    } else {
      forall k | 0 <= k < |v.items| ensures CLT.ListEntryShaped(v.items[k]) && Processable(v.items[k].entries) {
        assert ListInputOk(v.items[k]);
        TS.GetEntryHolds(v.items[k].entries, "id", ListInputEntryOk);
        OptionsProcessable(v.items[k].entries, ListInputEntryOk);
      }
    }
  }

  lemma OutputsOkShaped(v: Value)
    requires OutputsOk(v)
    ensures OutputsShaped(v)
  {
    if v.VDict? {
      forall k | 0 <= k < |v.entries|
        ensures Get(v.entries[k].1.entries, "type").value.VStr?
      {
        assert OutputOptionsOk(v.entries[k].1);
        TS.GetEntryHolds(v.entries[k].1.entries, "type", (e: (string, Value)) => e.0 == "type" && OutputTypeOk(e.1));
      }
    }
  }

  /** Every document the validator accepts can be read by `__set_cwl_args__` up to the outputs. */
  lemma ValidCwlLoadable(cwl: Value)
    requires ValidCwl(cwl)
    ensures Loadable(cwl)
  {
    TS.GetEntryHolds(cwl.entries, "baseCommand", TopEntryOk);
    TS.GetEntryHolds(cwl.entries, "inputs", TopEntryOk);
    InputsOkShaped(Get(cwl.entries, "inputs").value);
    if HasKey(cwl.entries, "outputs") {
      TS.GetEntryHolds(cwl.entries, "outputs", TopEntryOk);
      OutputsOkShaped(Get(cwl.entries, "outputs").value);
    }
  }

  /**
   * The validator accepts outputs only in a non-empty form, so a valid
   * document whose outputs use the list form never loads.
   */
  lemma ListFormOutputsNeverLoad(cwl: Value)
    requires ValidCwl(cwl) && HasKey(cwl.entries, "outputs") && Get(cwl.entries, "outputs").value.VList?
    ensures Loadable(cwl) && ProcessOutputs(Get(cwl.entries, "outputs").value) == Failure(TypeError)
  {
    ValidCwlLoadable(cwl);
    TS.GetEntryHolds(cwl.entries, "outputs", TopEntryOk);
  }

  // ----------------------------------------------------- the parsl arguments

  /**
   * `get_parsl_command_args`: as in the current revision, except that a
   * supplied File argument adds its value to a file list as one entry,
   * array or not.
   */
  function CommandArgs(base: string, ins: seq<InputArgument>, outs: seq<OutputArgument>, kwargs: map<string, Value>): Result<BashAppArgs>
  {
    AppArgs(Command(ToString, base, ins, kwargs), outs, InputSlots(ins, false), OutputSlots(outs, false), kwargs)
  }

  /**
   * The file lists never fail here: the arguments are produced exactly
   * when the command renders and every stdout, stderr and File output has
   * a value, and each list then holds one entry per supplied File argument.
   */
  lemma CommandArgsFilesOnePerArgument(base: string, ins: seq<InputArgument>, outs: seq<OutputArgument>, kwargs: map<string, Value>)
    ensures CommandArgs(base, ins, outs, kwargs).Success? <==>
      Command(ToString, base, ins, kwargs).Success? && forall i :: 0 <= i < |outs| ==> !Unmet(outs, kwargs, i)
    ensures CommandArgs(base, ins, outs, kwargs).Success? ==>
      |CommandArgs(base, ins, outs, kwargs).value.inputs| ==
        |set i | 0 <= i < |ins| && ins[i].typ == FILE && ins[i].id in kwargs| &&
      |CommandArgs(base, ins, outs, kwargs).value.outputs| ==
        |set i | 0 <= i < |outs| && outs[i].typ == FILE && outs[i].id in kwargs|
  {
    var inSlots, outSlots := InputSlots(ins, false), OutputSlots(outs, false);
    UnflattenedFilesOnePerArgument(inSlots, kwargs);
    UnflattenedFilesOnePerArgument(outSlots, kwargs);
    FilesExact(inSlots, kwargs);
    FilesExact(outSlots, kwargs);
    OutputsCheckedIff(outs, kwargs);
    assert (set i | 0 <= i < |inSlots| && inSlots[i].typ == FILE && inSlots[i].id in kwargs) ==
           (set i | 0 <= i < |ins| && ins[i].typ == FILE && ins[i].id in kwargs);
    assert (set i | 0 <= i < |outSlots| && outSlots[i].typ == FILE && outSlots[i].id in kwargs) ==
           (set i | 0 <= i < |outs| && outs[i].typ == FILE && outs[i].id in kwargs);
  }

  // ------------------------------------------------------------- the class

  class Tool {
    var baseCommand: string
    var inputs: seq<InputArgument>
    var outputs: seq<OutputArgument>

    constructor ()
      ensures baseCommand == "" && inputs == [] && outputs == []
    {
      baseCommand := "";
      inputs := [];
      outputs := [];
    }

    /** The loop of `__set_inputs`, which appends one argument per declared input. */
    static method ReadInputs(decl: seq<(string, seq<(string, Value)>)>) returns (collected: seq<InputArgument>)
      requires AllProcessable(decl)
      ensures collected == ProcessInputs(decl)
    {
      ghost var all := ProcessInputs(decl);
      collected := [];
      var i := 0;
      while i < |decl|
        invariant 0 <= i <= |decl|
        invariant collected == all[..i]
      {
        TakeOneMore(all, i);
        collected := collected + [ProcessInput(decl[i].0, decl[i].1)];
        i := i + 1;
      }
      assert all[..|decl|] == all;
    }

    /** `__set_inputs`: read every input, then sort. */
    method SetInputs(cwlInputs: Value)
      requires InputsShaped(cwlInputs)
      modifies this`inputs
      ensures var xs := ProcessInputs(CLT.Declared(cwlInputs));
        Sorted(inputs) && multiset(inputs) == multiset(xs) && KeepsTies(inputs, xs)
    {
      var collected := ReadInputs(CLT.Declared(cwlInputs));
      inputs := SortInputs(collected);
    }

    /** `__set_outputs`. */
    method SetOutputs(cwlOutputs: Value) returns (err: Option<Error>)
      requires OutputsShaped(cwlOutputs)
      modifies this`outputs
      ensures ProcessOutputs(cwlOutputs).Failure? ==>
        err == Some(ProcessOutputs(cwlOutputs).error) && outputs == old(outputs)
      ensures ProcessOutputs(cwlOutputs).Success? ==> err.None? && outputs == ProcessOutputs(cwlOutputs).value
    {
      var collected: seq<OutputArgument> := [];
      if cwlOutputs.VList? {
        if cwlOutputs.items != [] {
          return Some(TypeError);
        }
      } else if cwlOutputs.VDict? {
        var entries := cwlOutputs.entries;
        var i := 0;
        while i < |entries|
          invariant 0 <= i <= |entries|
          invariant |collected| == i && forall k :: 0 <= k < i ==> collected[k] == OutputPair(entries[k])
        {
          collected := collected + [OutputPair(entries[i])];
          i := i + 1;
        }
      }
      outputs := collected;
      err := None;
    }

    /** `__set_cwl_args__`: the base command, the inputs, then `self.__cwl["outputs"]`. */
    method SetCwlArgs(cwl: Value) returns (err: Option<Error>)
      requires Loadable(cwl)
      modifies this
      ensures baseCommand == CLT.BaseCommandText(Get(cwl.entries, "baseCommand").value)
      ensures var xs := ProcessInputs(CLT.Declared(Get(cwl.entries, "inputs").value));
        Sorted(inputs) && multiset(inputs) == multiset(xs) && KeepsTies(inputs, xs)
      ensures !HasKey(cwl.entries, "outputs") ==> err == Some(KeyError("outputs"))
      ensures HasKey(cwl.entries, "outputs") ==>
        var r := ProcessOutputs(Get(cwl.entries, "outputs").value);
        (r.Failure? ==> err == Some(r.error)) && (r.Success? ==> err.None? && outputs == r.value)
    {
      var b := Get(cwl.entries, "baseCommand").value;
      if b.VList? {
        baseCommand := Join(" ", Strings(b.items));
      } else {
        baseCommand := b.s;
      }
      SetInputs(Get(cwl.entries, "inputs").value);
      if !HasKey(cwl.entries, "outputs") {
        return Some(KeyError("outputs"));
      }
      err := SetOutputs(Get(cwl.entries, "outputs").value);
    }

    /**
     * `__init__` once the YAML is read: a rejected document raises; a
     * document without outputs raises KeyError; list-form outputs raise
     * TypeError; otherwise the tool holds the base command, its inputs
     * sorted (ties in declaration order), and one (id, type) pair per output.
     */
    static method Load(cwl: Value) returns (r: Result<Tool>)
      ensures !ValidCwl(cwl) ==> r == Failure(InvalidCwl)
      ensures ValidCwl(cwl) ==> (Loadable(cwl) &&
        (!HasKey(cwl.entries, "outputs") ==> r == Failure(KeyError("outputs"))) &&
        (HasKey(cwl.entries, "outputs") && ProcessOutputs(Get(cwl.entries, "outputs").value).Failure? ==>
           r == Failure(ProcessOutputs(Get(cwl.entries, "outputs").value).error)) &&
        (HasKey(cwl.entries, "outputs") && ProcessOutputs(Get(cwl.entries, "outputs").value).Success? ==>
           r.Success? && fresh(r.value) &&
           r.value.baseCommand == CLT.BaseCommandText(Get(cwl.entries, "baseCommand").value) &&
           var xs := ProcessInputs(CLT.Declared(Get(cwl.entries, "inputs").value));
           Sorted(r.value.inputs) && multiset(r.value.inputs) == multiset(xs) && KeepsTies(r.value.inputs, xs) &&
           r.value.outputs == ProcessOutputs(Get(cwl.entries, "outputs").value).value))
    {
      if !ValidCwl(cwl) {
        return Failure(InvalidCwl);
      }
      ValidCwlLoadable(cwl);
      var t := new Tool();
      var err := t.SetCwlArgs(cwl);
      if err.Some? {
        return Failure(err.value);
      }
      return Success(t);
    }

    /** `command_template`. */
    function CommandTemplate(): string
      reads this
    {
      UsageTemplate(baseCommand, inputs)
    }

    /** `get_command(**kwargs)`. */
    method GetCommand(kwargs: map<string, Value>) returns (r: Result<string>)
      ensures r == Command(ToString, baseCommand, inputs, kwargs)
    {
      var tokens := CollectTokens(ToString, inputs, kwargs);
      match tokens
      case Failure(e) => r := Failure(e);
      case Success(ts) => r := Success(baseCommand + " " + Join(" ", ts));
    }

    /** `get_parsl_command_args(**kwargs)`. */
    method ParslCommandArgs(kwargs: map<string, Value>) returns (r: Result<BashAppArgs>)
      ensures r == CommandArgs(baseCommand, inputs, outputs, kwargs)
    {
      var command := GetCommand(kwargs);
      r := BuildAppArgs(command, outputs, InputSlots(inputs, false), OutputSlots(outputs, false), kwargs);
    }
  }
}
