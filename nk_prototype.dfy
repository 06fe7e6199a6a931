/**
 * nk/cwl.py: the unsorted prototype. Inputs stay dictionaries (the
 * mapping form gains an "id"), nothing is validated, a missing input is
 * skipped, a default counts when present whatever its value, and string
 * values are wrapped in double quotes.
 */
module NkPrototype {
  import opened PyValue

  // -------------------------------------------------------- __set_inputs

  /** The entries of a dictionary other than `key`, in order. */
  function Without(entries: seq<(string, Value)>, key: string): (r: seq<(string, Value)>)
    ensures !HasKey(r, key)
    ensures forall other :: other != key ==> Get(r, other) == Get(entries, other)
  {
    if entries == [] then []
    else if entries[0].0 == key then Without(entries[1..], key)
    else [entries[0]] + Without(entries[1..], key)
  }

  /**
   * `input1 = {"id": id}; input1.update(opts)`: "id" stays first, holding
   * the options' own "id" when they have one, and the other options follow.
   */
  function Merged(id: string, opts: seq<(string, Value)>): seq<(string, Value)>
  {
    [("id", GetOr(opts, "id", VStr(id)))] + Without(opts, "id")
  }

  /** Looking up the merged dictionary: "id" gives the options' id or the key, anything else the options' entry. */
  lemma MergedLookup(id: string, opts: seq<(string, Value)>, key: string)
    ensures key == "id" ==> Get(Merged(id, opts), key) == Some(if HasKey(opts, "id") then Get(opts, "id").value else VStr(id))
    ensures key != "id" ==> Get(Merged(id, opts), key) == Get(opts, key)
  {
    var w := Without(opts, "id");
    assert Merged(id, opts)[1..] == w;
  }

  /** One (id, options) pair of the mapping form; `update` with a non-mapping raises. */
  function MergeEntry(e: (string, Value)): (r: Result<Value>)
  {
    if e.1.VDict? then Success(VDict(Merged(e.0, e.1.entries))) else Failure(TypeError)
  }

  /**
   * `__set_inputs`: the list form is kept, the mapping form becomes a list
   * of option dictionaries in mapping order; anything else reads nothing.
   */
  function Normalise(v: Value): Result<seq<Value>>
  {
    match v
    case VList(items) => Success(items)
    case VDict(entries) => MapAll(MergeEntry, entries)
    case _ => Success([])
  }

  /**
   * The mapping form reads exactly when every input's options are a
   * dictionary; then the k-th input is the k-th entry's options with its id.
   */
  lemma NormaliseMappingForm(entries: seq<(string, Value)>)
    ensures Normalise(VDict(entries)).Success? <==> forall k :: 0 <= k < |entries| ==> entries[k].1.VDict?
    ensures Normalise(VDict(entries)).Success? ==>
      var xs := Normalise(VDict(entries)).value;
      |xs| == |entries| &&
      forall k :: 0 <= k < |entries| ==>
        xs[k] == VDict(Merged(entries[k].0, entries[k].1.entries)) &&
        Get(xs[k].entries, "id") == Some(GetOr(entries[k].1.entries, "id", VStr(entries[k].0)))
  {
    MapAllPointwise(MergeEntry, entries);
  }

  // ------------------------------------------------------ command_template

  /** `inpt["id"]`: KeyError on a dictionary without it, TypeError on anything but a dictionary. */
  function IdOf(inpt: Value): (r: Result<Value>)
    ensures r.Success? <==> inpt.VDict? && HasKey(inpt.entries, "id")
    ensures r.Success? ==> r == Success(Get(inpt.entries, "id").value)
    ensures r.Failure? ==> r.error == (if inpt.VDict? then KeyError("id") else TypeError)
  {
    if !inpt.VDict? then Failure(TypeError)
    else match Get(inpt.entries, "id")
      case None => Failure(KeyError("id"))
      case Some(id) => Success(id)
  }

  function TemplateToken(inpt: Value): Result<string>
  {
    match IdOf(inpt)
    case Failure(e) => Failure(e)
    case Success(id) => Success("<" + Str(id) + ">")
  }

  /** `command_template`. */
  function Template(base: Value, inputs: seq<Value>): Result<string>
  {
    match MapAll(TemplateToken, inputs)
    case Failure(e) => Failure(e)
    case Success(ts) => Success("COMMAND: \n" + Str(base) + " " + Join(" ", ts))
  }

  /**
   * The template lists every input's id in angle brackets, in declaration
   * order; it raises exactly when some input has no id.
   */
  lemma TemplateListsIds(base: Value, inputs: seq<Value>)
    ensures Template(base, inputs).Success? <==> forall k :: 0 <= k < |inputs| ==> IdOf(inputs[k]).Success?
    ensures Template(base, inputs).Success? ==>
      Template(base, inputs).value ==
        "COMMAND: \n" + Str(base) + " " +
        Join(" ", seq(|inputs|, k requires 0 <= k < |inputs| && IdOf(inputs[k]).Success? =>
          "<" + Str(IdOf(inputs[k]).value) + ">"))
  {
    MapAllPointwise(TemplateToken, inputs);
    if Template(base, inputs).Success? {
      var ts := MapAll(TemplateToken, inputs).value;
      assert ts == seq(|inputs|, k requires 0 <= k < |inputs| && IdOf(inputs[k]).Success? =>
          "<" + Str(IdOf(inputs[k]).value) + ">");
    }
  }

  // ----------------------------------------------------------- get_command

  /** A value picked for the command line and the input's declared type. */
  datatype Arg = Arg(value: Value, typ: Value)

  /** `inpt["type"]`, once `inpt` is known to be a dictionary. */
  function TypeOf(inpt: Value): Result<Value>
    requires inpt.VDict?
  {
    match Get(inpt.entries, "type")
    case None => Failure(KeyError("type"))
    case Some(t) => Success(t)
  }

  /**
   * One pass of the loop: a supplied value wins, then a present "default"
   * whatever its value; otherwise the input is skipped. An id that is a
   * list or a dictionary cannot be looked up in the keyword arguments.
   */
  function Pick(inpt: Value, kwargs: map<string, Value>): (r: Result<Option<Arg>>)
  {
    match IdOf(inpt)
    case Failure(e) => Failure(e)
    case Success(id) =>
      if id.VList? || id.VDict? then Failure(TypeError)
      else if id.VStr? && id.s in kwargs then
        match TypeOf(inpt)
        case Failure(e) => Failure(e)
        case Success(t) => Success(Some(Arg(kwargs[id.s], t)))
      else if HasKey(inpt.entries, "default") then
        match TypeOf(inpt)
        case Failure(e) => Failure(e)
        case Success(t) => Success(Some(Arg(Get(inpt.entries, "default").value, t)))
      else Success(None)
  }

  /** The picked values, skipped inputs dropped. */
  function Somes(xs: seq<Option<Arg>>): (r: seq<Arg>)
    ensures |r| <= |xs|
  {
    if xs == [] then []
    else Somes(xs[..|xs| - 1]) + (if xs[|xs| - 1].Some? then [xs[|xs| - 1].value] else [])
  }

  lemma {:induction false} SomesAppend(xs: seq<Option<Arg>>, ys: seq<Option<Arg>>)
    ensures Somes(xs + ys) == Somes(xs) + Somes(ys)
    decreases |ys|
  {
    if ys == [] {
      assert xs + ys == xs;
    } else {
      var n := |ys|;
      assert (xs + ys)[..|xs + ys| - 1] == xs + ys[..n - 1];
      assert (xs + ys)[|xs + ys| - 1] == ys[n - 1];
      SomesAppend(xs, ys[..n - 1]);
    }
  }

  /** `f'"{arg}"' if arg_type == "string" else f"{arg}"`. */
  function Token(a: Arg): string
  {
    if a.typ == VStr("string") then "\"" + Str(a.value) + "\"" else Str(a.value)
  }

  function Tokens(args: seq<Arg>): (r: seq<string>)
    ensures |r| == |args| && forall k :: 0 <= k < |args| ==> r[k] == Token(args[k])
  {
    seq(|args|, k requires 0 <= k < |args| => Token(args[k]))
  }

  /** `get_command(**kwargs)`: the loop raises on the first input it cannot read; the join cannot fail. */
  function NkCommand(base: Value, inputs: seq<Value>, kwargs: map<string, Value>): Result<string>
  {
    match MapAll((x: Value) => Pick(x, kwargs), inputs)
    case Failure(e) => Failure(e)
    case Success(picks) => Success(Str(base) + " " + Join(" ", Tokens(Somes(picks))))
  }

  /**
   * An input that is neither supplied nor defaulted raises nothing: the
   * command is the one built without it.
   */
  lemma SkippedInputDropsOut(base: Value, inputs: seq<Value>, i: int, kwargs: map<string, Value>)
    requires 0 <= i < |inputs| && Pick(inputs[i], kwargs) == Success(None)
    ensures NkCommand(base, inputs, kwargs) == NkCommand(base, inputs[..i] + inputs[i + 1..], kwargs)
  {
    var f := (x: Value) => Pick(x, kwargs);
    var a, b := inputs[..i], inputs[i + 1..];
    assert inputs == a + [inputs[i]] + b;
    assert [inputs[i]][..0] == [];
    assert f(inputs[i]) == Success(None);
    assert MapAll(f, [inputs[i]]) == Success([] + [None]);
    MapAllAppend(f, a, [inputs[i]]);
    MapAllAppend(f, a + [inputs[i]], b);
    MapAllAppend(f, a, b);
    if MapAll(f, a).Success? && MapAll(f, b).Success? {
      SomesDropNone(MapAll(f, a).value, MapAll(f, b).value);
    }
  }

  /** A skipped pick adds no token. */
  lemma SomesDropNone(u: seq<Option<Arg>>, v: seq<Option<Arg>>)
    ensures Somes(u + [None] + v) == Somes(u + v)
  {
    SomesAppend(u + [None], v);
    SomesAppend(u, [None]);
    SomesAppend(u, v);
    assert Somes([None]) == [];
    assert Somes(u + [None]) == Somes(u);
  }

  /**
   * A "default" key counts by its presence: an input not supplied uses its
   * default even when that value is falsy, and it renders as `str()` gives.
   */
  lemma DefaultUsedByPresence(inpt: Value, kwargs: map<string, Value>)
    requires inpt.VDict? && HasKey(inpt.entries, "id") && Get(inpt.entries, "id").value.VStr?
    requires Get(inpt.entries, "id").value.s !in kwargs
    requires HasKey(inpt.entries, "default") && HasKey(inpt.entries, "type")
    ensures Pick(inpt, kwargs) == Success(Some(Arg(Get(inpt.entries, "default").value, Get(inpt.entries, "type").value)))
  {
  }

  /** A supplied keyword value wins over any default and takes the input's "type". */
  lemma SuppliedValueUsed(inpt: Value, kwargs: map<string, Value>, id: string, t: Value)
    requires inpt.VDict? && Get(inpt.entries, "id") == Some(VStr(id)) && id in kwargs
    requires Get(inpt.entries, "type") == Some(t)
    ensures Pick(inpt, kwargs) == Success(Some(Arg(kwargs[id], t)))
  {
  }

  /** An input neither supplied nor defaulted is skipped, whatever its type. */
  lemma UnsuppliedSkipped(inpt: Value, kwargs: map<string, Value>, id: string)
    requires inpt.VDict? && Get(inpt.entries, "id") == Some(VStr(id)) && id !in kwargs
    requires !HasKey(inpt.entries, "default")
    ensures Pick(inpt, kwargs) == Success(None)
  {
  }

  /** What each input picks, once every pick succeeds. */
  function Picks(inputs: seq<Value>, kwargs: map<string, Value>): (r: seq<Option<Arg>>)
    requires forall k :: 0 <= k < |inputs| ==> Pick(inputs[k], kwargs).Success?
    ensures |r| == |inputs| && forall k :: 0 <= k < |inputs| ==> r[k] == Pick(inputs[k], kwargs).value
  {
    seq(|inputs|, k requires 0 <= k < |inputs| && Pick(inputs[k], kwargs).Success? => Pick(inputs[k], kwargs).value)
  }

  /**
   * The command is the base command, a space, and one token per input that
   * was supplied or defaulted, in declaration order; values of type
   * "string" are double-quoted, all others bare.
   */
  lemma {:induction false} CommandInDeclarationOrder(base: Value, inputs: seq<Value>, kwargs: map<string, Value>)
    ensures NkCommand(base, inputs, kwargs).Success? <==> forall k :: 0 <= k < |inputs| ==> Pick(inputs[k], kwargs).Success?
    ensures NkCommand(base, inputs, kwargs).Success? ==>
      NkCommand(base, inputs, kwargs).value == Str(base) + " " + Join(" ", Tokens(Somes(Picks(inputs, kwargs))))
  {
    var f := (x: Value) => Pick(x, kwargs);
    MapAllPointwise(f, inputs);
    if MapAll(f, inputs).Success? {
      assert MapAll(f, inputs).value == Picks(inputs, kwargs);
    }
  }

  /** A "string" value is wrapped in double quotes; other types go bare. */
  lemma StringsDoubleQuoted(v: Value, t: Value)
    ensures t == VStr("string") ==> Token(Arg(v, t)) == "\"" + Str(v) + "\""
    ensures t != VStr("string") ==> Token(Arg(v, t)) == Str(v)
    ensures Token(Arg(VStr("hi"), VStr("string"))) == "\"hi\""
  {
  }

  // ------------------------------------------------------------ the class

  class Tool {
    var baseCommand: Value
    var inputs: seq<Value>
    var outputs: seq<Value>
    /** The attribute `__set_outputs` assigns: the outputs as written, never read again. */
    var declaredOutputs: Value

    constructor ()
      ensures baseCommand == VNone && inputs == [] && outputs == [] && declaredOutputs == VNone
    {
      baseCommand := VNone;
      inputs := [];
      outputs := [];
      declaredOutputs := VNone;
    }

    /**
     * `__set_inputs`: the list form replaces the inputs, the mapping form
     * appends one dictionary per entry, anything else leaves them as they
     * are. The partly filled list left by a raising `update` is not stated.
     */
    method SetInputs(cwlInputs: Value) returns (err: Option<Error>)
      modifies this`inputs
      ensures Normalise(cwlInputs).Failure? ==> err == Some(Normalise(cwlInputs).error)
      ensures Normalise(cwlInputs).Success? ==> (
        err.None? && inputs == (if cwlInputs.VList? then [] else old(inputs)) + Normalise(cwlInputs).value)
    {
      if cwlInputs.VList? {
        inputs := cwlInputs.items;
        return None;
      } else if cwlInputs.VDict? {
        var entries := cwlInputs.entries;
        var i := 0;
        while i < |entries|
          invariant 0 <= i <= |entries|
          invariant MapAll(MergeEntry, entries[..i]).Success?
          invariant inputs == old(inputs) + MapAll(MergeEntry, entries[..i]).value
        {
          assert entries[..i + 1][..i] == entries[..i];
          var merged := MergeEntry(entries[i]);
          if merged.Failure? {
            MapAllFailurePersists(MergeEntry, entries, i + 1);
            return Some(merged.error);
          }
          inputs := inputs + [merged.value];
          i := i + 1;
        }
        assert entries[..i] == entries;
        return None;
      }
      err := None;
    }

    /**
     * `__init__` once the YAML is read (`__validate_cwl` accepts anything):
     * a document that is not a mapping raises TypeError at the first
     * lookup; then KeyError for the first of "baseCommand", "inputs" and
     * "outputs" that is missing, with the inputs read between the last two.
     */
    static method Load(cwl: Value) returns (r: Result<Tool>)
      ensures !cwl.VDict? ==> r == Failure(TypeError)
      ensures cwl.VDict? && !HasKey(cwl.entries, "baseCommand") ==> r == Failure(KeyError("baseCommand"))
      ensures cwl.VDict? && HasKey(cwl.entries, "baseCommand") && !HasKey(cwl.entries, "inputs") ==>
        r == Failure(KeyError("inputs"))
      ensures cwl.VDict? && HasKey(cwl.entries, "baseCommand") && HasKey(cwl.entries, "inputs") ==> (
        var n := Normalise(Get(cwl.entries, "inputs").value);
        (n.Failure? ==> r == Failure(n.error)) &&
        (n.Success? && !HasKey(cwl.entries, "outputs") ==> r == Failure(KeyError("outputs"))) &&
        (n.Success? && HasKey(cwl.entries, "outputs") ==> (
          r.Success? && fresh(r.value) &&
          r.value.baseCommand == Get(cwl.entries, "baseCommand").value &&
          r.value.inputs == n.value && r.value.outputs == [] &&
          r.value.declaredOutputs == Get(cwl.entries, "outputs").value)))
    {
      if !cwl.VDict? {
        return Failure(TypeError);
      }
      if !HasKey(cwl.entries, "baseCommand") {
        return Failure(KeyError("baseCommand"));
      }
      var t := new Tool();
      t.baseCommand := Get(cwl.entries, "baseCommand").value;
      if !HasKey(cwl.entries, "inputs") {
        return Failure(KeyError("inputs"));
      }
      var err := t.SetInputs(Get(cwl.entries, "inputs").value);
      if err.Some? {
        return Failure(err.value);
      }
      if !HasKey(cwl.entries, "outputs") {
        return Failure(KeyError("outputs"));
      }
      t.declaredOutputs := Get(cwl.entries, "outputs").value;
      return Success(t);
    }

    /** `command_template`. */
    function CommandTemplate(): Result<string>
      reads this
    {
      Template(baseCommand, inputs)
    }

    /** `get_command(**kwargs)`, as the loop over the inputs. */
    method GetCommand(kwargs: map<string, Value>) returns (r: Result<string>)
      ensures r == NkCommand(baseCommand, inputs, kwargs)
    {
      var f := (x: Value) => Pick(x, kwargs);
      var picks: seq<Option<Arg>> := [];
      var args: seq<Arg> := [];
      var i := 0;
      while i < |inputs|
        invariant 0 <= i <= |inputs|
        invariant MapAll(f, inputs[..i]) == Success(picks)
        invariant args == Somes(picks)
      {
        assert inputs[..i + 1][..i] == inputs[..i];
        var p := Pick(inputs[i], kwargs);
        if p.Failure? {
          MapAllFailurePersists(f, inputs, i + 1);
          return Failure(p.error);
        }
        assert (picks + [p.value])[..|picks|] == picks;
        if p.value.Some? {
          args := args + [p.value.value];
        }
        picks := picks + [p.value];
        i := i + 1;
      }
      assert inputs[..i] == inputs;
      r := Success(Str(baseCommand) + " " + Join(" ", Tokens(args)));
    }
  }
}
