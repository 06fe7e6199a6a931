/**
 * cwl.py: the earliest class-based revision of the CommandLineTool. It
 * never quotes a value, compares inputs by their positions directly (so
 * sorting two or more inputs needs every position), refuses more keyword
 * values than there are inputs, and keeps the outputs unread.
 */
module CwlScript {
  import opened PyValue
  import opened Arguments
  import opened Ordering
  import opened Resolution
  import TS = ToolSchema
  import CLT = CommandLineTool
  import Pkg = CwlPackage

  // ------------------------------------------------------------ to_string

  /** The text a non-boolean value renders to: joined by the separator, or `str()`, never quoted. */
  function ValueText(a: InputArgument, v: Value): Result<string>
  {
    if a.isArray then JoinValue(ItemSep(a), v) else Success(Str(v))
  }

  /** `__InputArgument__.to_string`. */
  function ToString(a: InputArgument, inputArg: Value): Result<string>
  {
    if a.typ == BOOLEAN then Success(FormatOpt(a.prefix))
    else
      match ValueText(a, CLT.Chosen(a, inputArg))
      case Failure(e) => Failure(e)
      case Success(t) => Success(WithPrefix(a, t))
  }

  /**
   * Only string inputs render differently from cwl/cwl.py, which quotes
   * them: a scalar loses its two quotes, an array of strings the quotes
   * around each separator.
   */
  lemma {:induction false} NeverQuoted(a: InputArgument, v: Value)
    requires a.typ != BOOLEAN
    ensures a.typ != STRING ==> ToString(a, v) == Pkg.ToString(a, v)
    ensures a.typ == STRING && !a.isArray ==> Pkg.ValueText(a, v) == Success("'" + ValueText(a, v).value + "'")
    ensures a.typ == STRING && a.isArray && v.VList? && AllStrings(v.items) ==>
      ValueText(a, v) == Success(Join(ItemSep(a), Strings(v.items))) &&
      Pkg.ValueText(a, v) == Success(Join("'" + ItemSep(a) + "'", Strings(v.items)))
  {
    if a.typ != STRING {
      assert "" + ItemSep(a) + "" == ItemSep(a);
      var c := CLT.Chosen(a, v);
      assert "" + Str(c) + "" == Str(c);
      assert ValueText(a, c) == Pkg.ValueText(a, c);
    }
  }

  /** A boolean gives its prefix whatever the value; a falsy value gives way to the default. */
  lemma BooleanAndFalsyValues(a: InputArgument, v: Value)
    ensures a.typ == BOOLEAN ==> ToString(a, v) == Success(FormatOpt(a.prefix))
    ensures !Truthy(v) ==> ToString(a, v) == ToString(a, a.default)
  {
  }

  lemma ToStringRaisesOnlyTypeError()
    ensures RaisesOnlyTypeError(ToString)
  {
    forall a, v ensures ToString(a, v).Failure? ==> ToString(a, v).error == TypeError {
      if a.typ != BOOLEAN && a.isArray {
        var c := CLT.Chosen(a, v);
        assert JoinValue(ItemSep(a), c).Failure? ==> JoinValue(ItemSep(a), c).error == TypeError;
      }
    }
  }

  // ------------------------------------------------------------- ordering

  /** `__lt__`: `self.position < other.position`; comparing with None raises TypeError. */
  function PositionLt(a: InputArgument, b: InputArgument): Result<bool>
  {
    if a.position.Some? && b.position.Some? then Success(a.position.value < b.position.value)
    else Failure(TypeError)
  }

  /** Where this comparator answers, it answers as the newer revisions' `__lt__`. */
  lemma PositionLtAgreesWithLt(a: InputArgument, b: InputArgument)
    ensures PositionLt(a, b).Success? <==> a.position.Some? && b.position.Some?
    ensures PositionLt(a, b).Success? ==> (PositionLt(a, b).value <==> Lt(a, b))
  {
  }

  /**
   * `list.sort()` compares every element at least once when there are two
   * or more, so it raises exactly when one of them has no position.
   */
  predicate SortRaises(xs: seq<InputArgument>)
  {
    |xs| >= 2 && !AllPositioned(xs)
  }

  // --------------------------------------------------------- validation

  /** `Or(Schema({position: int, prefix?: str, separate?: bool, itemSeparator?: str}), {})`. */
  predicate BindingOk(v: Value)
  {
    v.VDict? &&
    (v.entries == [] ||
     (HasKey(v.entries, "position") && forall k :: 0 <= k < |v.entries| ==> TS.BindingEntryOk(v.entries[k])))
  }

  /** One entry of an input's options: `type: str`, a default of any (non-float) value, a binding. */
  predicate InputOptionEntryOk(e: (string, Value))
  {
    if e.0 == "type" then e.1.VStr?
    else if e.0 == "default" then true
    else if e.0 == "inputBinding" then BindingOk(e.1)
    else false
  }

  predicate InputOptionsOk(v: Value)
  {
    v.VDict? && HasKey(v.entries, "type") &&
    forall k :: 0 <= k < |v.entries| ==> InputOptionEntryOk(v.entries[k])
  }

  predicate ListInputEntryOk(e: (string, Value))
  {
    if e.0 == "id" then e.1.VStr? else InputOptionEntryOk(e)
  }

  predicate ListInputOk(v: Value)
  {
    v.VDict? && HasKey(v.entries, "id") && HasKey(v.entries, "type") &&
    forall k :: 0 <= k < |v.entries| ==> ListInputEntryOk(v.entries[k])
  }

  /** A non-empty mapping of input options, or a list of inputs (which may be empty). */
  predicate InputsOk(v: Value)
  {
    (v.VDict? && |v.entries| > 0 && forall k :: 0 <= k < |v.entries| ==> InputOptionsOk(v.entries[k].1)) ||
    (v.VList? && forall k :: 0 <= k < |v.items| ==> ListInputOk(v.items[k]))
  }

  /** One top-level entry; "outputs" and "stdout" may hold any value, other keys are refused. */
  predicate TopEntryOk(e: (string, Value))
  {
    if e.0 == "cwlVersion" then e.1.VStr?
    else if e.0 == "baseCommand" then TS.BaseCommandOk(e.1)
    else if e.0 == "class" then e.1 == VStr("CommandLineTool")
    else if e.0 == "inputs" then InputsOk(e.1)
    else e.0 == "outputs" || e.0 == "stdout"
  }

  /** `validate_cwl` accepts the document. */
  predicate ValidCwl(doc: Value)
  {
    doc.VDict? &&
    HasKey(doc.entries, "cwlVersion") && HasKey(doc.entries, "baseCommand") &&
    HasKey(doc.entries, "class") && HasKey(doc.entries, "inputs") &&
    forall k :: 0 <= k < |doc.entries| ==> TopEntryOk(doc.entries[k])
  }

  /**
   * Under this validator an input has a position exactly when its binding
   * is present and not `{}`.
   */
  lemma PositionedIffBound(id: string, opts: seq<(string, Value)>)
    requires Pkg.Processable(opts)
    requires HasKey(opts, "inputBinding") ==> BindingOk(Get(opts, "inputBinding").value)
    ensures Pkg.ProcessInput(id, opts).position.Some? <==>
      HasKey(opts, "inputBinding") && Get(opts, "inputBinding").value.entries != []
  {
    if HasKey(opts, "inputBinding") && Get(opts, "inputBinding").value.entries != [] {
      var b := Get(opts, "inputBinding").value.entries;
      TS.GetEntryHolds(b, "position", TS.BindingEntryOk);
    }
  }

  /** What the constructor reads before the outputs, in the shape the validator guarantees. */
  predicate Loadable(cwl: Value)
  {
    cwl.VDict? &&
    HasKey(cwl.entries, "baseCommand") && TS.BaseCommandOk(Get(cwl.entries, "baseCommand").value) &&
    HasKey(cwl.entries, "inputs") && Pkg.InputsShaped(Get(cwl.entries, "inputs").value)
  }

  lemma OptionsProcessable(opts: seq<(string, Value)>, P: ((string, Value)) -> bool)
    requires HasKey(opts, "type")
    requires forall k :: 0 <= k < |opts| ==> P(opts[k])
    requires P == InputOptionEntryOk || P == ListInputEntryOk
    ensures Pkg.Processable(opts)
  {
    TS.GetEntryHolds(opts, "type", P);
    if HasKey(opts, "inputBinding") {
      TS.GetEntryHolds(opts, "inputBinding", P);
      var b := Get(opts, "inputBinding").value;
      if b.entries != [] {
        CLT.BindingOkTyped(b);
      }
    }
  }

  lemma InputsOkShaped(v: Value)
    requires InputsOk(v)
    ensures Pkg.InputsShaped(v)
  {
    if v.VDict? && |v.entries| > 0 && forall k :: 0 <= k < |v.entries| ==> InputOptionsOk(v.entries[k].1) {
      forall k | 0 <= k < |v.entries| ensures Pkg.Processable(v.entries[k].1.entries) {
        OptionsProcessable(v.entries[k].1.entries, InputOptionEntryOk);
      }
    } else {
      forall k | 0 <= k < |v.items| ensures CLT.ListEntryShaped(v.items[k]) && Pkg.Processable(v.items[k].entries) {
        assert ListInputOk(v.items[k]);
        TS.GetEntryHolds(v.items[k].entries, "id", ListInputEntryOk);
        OptionsProcessable(v.items[k].entries, ListInputEntryOk);
      }
    }
  }

  lemma ValidCwlLoadable(cwl: Value)
    requires ValidCwl(cwl)
    ensures Loadable(cwl)
  {
    TS.GetEntryHolds(cwl.entries, "baseCommand", TopEntryOk);
    TS.GetEntryHolds(cwl.entries, "inputs", TopEntryOk);
    InputsOkShaped(Get(cwl.entries, "inputs").value);
  }

  // ---------------------------------------------------------- get_command

  /** `get_command`: the count check first, then the resolution loop. */
  function ScriptCommand(base: string, xs: seq<InputArgument>, kwargs: map<string, Value>): Result<string>
  {
    if |kwargs| > |xs| then Failure(TooManyArguments) else Command(ToString, base, xs, kwargs)
  }

  /** Distinct ids all among the keys, plus one further key, make more keys than ids. */
  lemma {:induction false} KeysOutnumberInputs(xs: seq<InputArgument>, keys: set<string>, extra: string)
    requires forall i, j :: 0 <= i < j < |xs| ==> xs[i].id != xs[j].id
    requires forall i :: 0 <= i < |xs| ==> xs[i].id in keys && xs[i].id != extra
    requires extra in keys
    ensures |keys| > |xs|
    decreases |xs|
  {
    if xs != [] {
      var n := |xs|;
      var init := xs[..n - 1];
      var rest := keys - {xs[n - 1].id};
      assert forall i :: 0 <= i < n - 1 ==> init[i] == xs[i];
      KeysOutnumberInputs(init, rest, extra);
    }
  }

  /**
   * A keyword value that names no input is refused here once every input
   * is supplied, while the current revision ignores it: there the command
   * is the one rendered without it.
   */
  lemma ExtraKeywordRefused(base: string, xs: seq<InputArgument>, kwargs: map<string, Value>, extra: string)
    requires forall i, j :: 0 <= i < j < |xs| ==> xs[i].id != xs[j].id
    requires forall i :: 0 <= i < |xs| ==> xs[i].id in kwargs && xs[i].id != extra
    requires extra in kwargs
    ensures ScriptCommand(base, xs, kwargs) == Failure(TooManyArguments)
    ensures Command(CLT.ToString, base, xs, kwargs) == Command(CLT.ToString, base, xs, kwargs - {extra})
  {
    KeysOutnumberInputs(xs, kwargs.Keys, extra);
    ExtraKeywordsIgnored(CLT.ToString, xs, kwargs, kwargs - {extra});
  }

  // ------------------------------------------------------------ the class

  class Tool {
    var baseCommand: string
    var inputs: seq<InputArgument>
    var declaredOutputs: Value

    constructor ()
      ensures baseCommand == "" && inputs == [] && declaredOutputs == VNone
    {
      baseCommand := "";
      inputs := [];
      declaredOutputs := VNone;
    }

    /** The loop of `__set_inputs`, which appends to the field one argument per declared input. */
    method AppendInputs(decl: seq<(string, seq<(string, Value)>)>)
      requires Pkg.AllProcessable(decl)
      modifies this`inputs
      ensures inputs == old(inputs) + Pkg.ProcessInputs(decl)
    {
      ghost var all := Pkg.ProcessInputs(decl);
      var i := 0;
      while i < |decl|
        invariant 0 <= i <= |decl|
        invariant inputs == old(inputs) + all[..i]
      {
        TakeOneMore(all, i);
        inputs := inputs + [Pkg.ProcessInput(decl[i].0, decl[i].1)];
        i := i + 1;
      }
      assert all[..|decl|] == all;
    }

    /** `__set_inputs`: append every input, then sort in place. */
    method SetInputs(cwlInputs: Value) returns (err: Option<Error>)
      requires Pkg.InputsShaped(cwlInputs)
      requires inputs == []
      modifies this`inputs
      ensures var xs := Pkg.ProcessInputs(CLT.Declared(cwlInputs));
        (SortRaises(xs) ==> err == Some(TypeError)) &&
        (!SortRaises(xs) ==> err.None? && Sorted(inputs) && multiset(inputs) == multiset(xs) && KeepsTies(inputs, xs))
    {
      ghost var xs := Pkg.ProcessInputs(CLT.Declared(cwlInputs));
      AppendInputs(CLT.Declared(cwlInputs));
      assert inputs == xs;
      if SortRaises(inputs) {
        return Some(TypeError);
      }
      inputs := SortInputs(inputs);
      err := None;
    }

    /** `__set_outputs`, which stores the outputs as written, over the method's own name. */
    method SetOutputs(cwlOutputs: Value)
      modifies this`declaredOutputs
      ensures declaredOutputs == cwlOutputs
    {
      declaredOutputs := cwlOutputs;
    }

    /**
     * The settings `__init__` reads from a validated document: the base
     * command, the inputs (the sort raises TypeError when two or more are
     * read and one has no position), and the outputs, whose absence raises
     * KeyError.
     */
    method ReadSettings(cwl: Value) returns (err: Option<Error>)
      requires Loadable(cwl) && inputs == []
      modifies this
      ensures var xs := Pkg.ProcessInputs(CLT.Declared(Get(cwl.entries, "inputs").value));
        (SortRaises(xs) ==> err == Some(TypeError)) &&
        (!SortRaises(xs) && !HasKey(cwl.entries, "outputs") ==> err == Some(KeyError("outputs"))) &&
        (!SortRaises(xs) && HasKey(cwl.entries, "outputs") ==> (
           err.None? &&
           baseCommand == CLT.BaseCommandText(Get(cwl.entries, "baseCommand").value) &&
           Sorted(inputs) && multiset(inputs) == multiset(xs) && KeepsTies(inputs, xs) &&
           declaredOutputs == Get(cwl.entries, "outputs").value))
    {
      var b := Get(cwl.entries, "baseCommand").value;
      if b.VList? {
        baseCommand := Join(" ", Strings(b.items));
      } else {
        baseCommand := b.s;
      }
      err := SetInputs(Get(cwl.entries, "inputs").value);
      if err.Some? {
        return;
      }
      if !HasKey(cwl.entries, "outputs") {
        return Some(KeyError("outputs"));
      }
      SetOutputs(Get(cwl.entries, "outputs").value);
    }

    /**
     * `__init__` once the YAML is read: a rejected document raises;
     * otherwise the settings are read and their first error raised.
     */
    static method Load(cwl: Value) returns (r: Result<Tool>)
      ensures !ValidCwl(cwl) ==> r == Failure(InvalidCwl)
      ensures ValidCwl(cwl) ==> (
        Loadable(cwl) &&
        var xs := Pkg.ProcessInputs(CLT.Declared(Get(cwl.entries, "inputs").value));
        (SortRaises(xs) ==> r == Failure(TypeError)) &&
        (!SortRaises(xs) && !HasKey(cwl.entries, "outputs") ==> r == Failure(KeyError("outputs"))) &&
        (!SortRaises(xs) && HasKey(cwl.entries, "outputs") ==> (
           r.Success? && fresh(r.value) &&
           r.value.baseCommand == CLT.BaseCommandText(Get(cwl.entries, "baseCommand").value) &&
           Sorted(r.value.inputs) && multiset(r.value.inputs) == multiset(xs) && KeepsTies(r.value.inputs, xs) &&
           r.value.declaredOutputs == Get(cwl.entries, "outputs").value)))
    {
      if !ValidCwl(cwl) {
        return Failure(InvalidCwl);
      }
      ValidCwlLoadable(cwl);
      var t := new Tool();
      var err := t.ReadSettings(cwl);
      if err.Some? {
        return Failure(err.value);
      }
      return Success(t);
    }

    /** `command_template`. */
    function CommandTemplate(): string
      reads this
    {
      UsageTemplate(baseCommand, inputs)
    }

    /** `get_command(**kwargs)`. */
    method GetCommand(kwargs: map<string, Value>) returns (r: Result<string>)
      ensures r == ScriptCommand(baseCommand, inputs, kwargs)
    {
      if |kwargs| > |inputs| {
        return Failure(TooManyArguments);
      }
      var tokens := CollectTokens(ToString, inputs, kwargs);
      match tokens
      case Failure(e) => r := Failure(e);
      case Success(ts) => r := Success(baseCommand + " " + Join(" ", ts));
    }
  }
}
