/**
 * The `find` tool of the repository's correctness test, written down as
 * the document `yaml.safe_load` would return, and what each revision
 * makes of it: the tests expect `find '.' -name '*.cwl' -maxdepth 3`
 * both with and without an explicit `maxdepth`.
 */
module Scenarios {
  import opened PyValue
  import opened Arguments
  import opened Ordering
  import opened Resolution
  import opened BashApp
  import TS = ToolSchema
  import CLT = CommandLineTool
  import Pkg = CwlPackage
  import Script = CwlScript
  import Nk = NkPrototype

  // ------------------------------------------------------------ the document

  const DirOpts: seq<(string, Value)> :=
    [("type", VStr("string")), ("inputBinding", VDict([("position", VInt(1))]))]
  const NameOpts: seq<(string, Value)> :=
    [("type", VStr("string")), ("inputBinding", VDict([("position", VInt(2)), ("prefix", VStr("-name"))]))]
  const MaxdepthOpts: seq<(string, Value)> :=
    [("type", VStr("int?")), ("default", VInt(3)),
     ("inputBinding", VDict([("position", VInt(3)), ("prefix", VStr("-maxdepth"))]))]
  const OutOpts: seq<(string, Value)> := [("type", VStr("stdout"))]

  const FindInputs: Value := VDict([("dir", VDict(DirOpts)), ("name", VDict(NameOpts)), ("maxdepth", VDict(MaxdepthOpts))])
  const FindOutputs: Value := VDict([("example_out", VDict(OutOpts))])
  const FindDoc: Value := VDict([
    ("cwlVersion", VStr("v1.0")), ("class", VStr("CommandLineTool")), ("baseCommand", VStr("find")),
    ("inputs", FindInputs), ("outputs", FindOutputs)])

  /** The arguments the document should read to. */
  const Dir := InputArgument("dir", "string", false, false, VNone, Some(1), None, None, true)
  const Name := InputArgument("name", "string", false, false, VNone, Some(2), Some("-name"), None, true)
  const Maxdepth := InputArgument("maxdepth", "int", false, true, VInt(3), Some(3), Some("-maxdepth"), None, true)
  const ExampleOut := OutputArgument("example_out", "stdout", false)

  /** The keyword values of the two calls in the test, the stdout target being `out`. */
  function WithMaxdepth(out: string): map<string, Value>
  {
    map["dir" := VStr("."), "maxdepth" := VInt(3), "name" := VStr("*.cwl"), "example_out" := VStr(out)]
  }

  function WithoutMaxdepth(out: string): map<string, Value>
  {
    map["dir" := VStr("."), "name" := VStr("*.cwl"), "example_out" := VStr(out)]
  }

  const FindCommand := "find '.' -name '*.cwl' -maxdepth 3"

  // ------------------------------------------------------------- validation

  lemma FindInputsValid()
    ensures TS.InputsOk(FindInputs)
  {
    assert TS.InputTypes[6] == "string";
    assert TS.Suffixed("?")[2] == "int?";
    assert TS.InputTypes[|TS.InputSimpleTypes| * 2 + 2] == "int?";
    assert TS.IsIdentifier("dir") && TS.IsIdentifier("name") && TS.IsIdentifier("maxdepth");
    assert DirOpts[0].0 == "type" && NameOpts[0].0 == "type" && MaxdepthOpts[0].0 == "type";
  }

  lemma FindOutputsValid()
    ensures TS.OutputsOk(FindOutputs)
  {
    assert TS.OutputTypes[0] == "stdout";
    assert TS.IsIdentifier("example_out");
    assert OutOpts[0].0 == "type";
  }

  /** The current validator accepts the document. */
  lemma FindDocValid()
    ensures TS.ValidCwl(FindDoc)
  {
    FindInputsValid();
    FindOutputsValid();
    assert TS.NumberGroups("1.0") by {
      assert TS.CountDots("1.0") == 1 by {
        assert "1.0"[..2] == "1." && "1."[..1] == "1" && "1"[..0] == [];
      }
    }
    assert "v1.0"[1..] == "1.0";
    var e := FindDoc.entries;
    forall k | 0 <= k < |TS.TopLevelKeys| ensures HasKey(e, TS.TopLevelKeys[k]) {
      assert e[0].0 == "cwlVersion" && e[1].0 == "class" && e[2].0 == "baseCommand";
      assert e[3].0 == "inputs" && e[4].0 == "outputs";
    }
  }

  // ------------------------------------------------ the current revision

  lemma DirProcessable()
    ensures CLT.Processable(DirOpts)
  {
    assert Get(DirOpts, "type") == Some(VStr("string"));
    assert Get(DirOpts, "inputBinding") == Some(VDict([("position", VInt(1))]));
  }

  lemma DirBound()
    ensures CLT.Bound("dir", "string", false, false, DirOpts) == Dir
  {
    assert SubDict(DirOpts, "inputBinding") == [("position", VInt(1))];
    assert GetOr(DirOpts, "default", VNone) == VNone;
  }

  /** Reading an input whose type is a plain string, once its parts are known. */
  lemma ReadAs(id: string, opts: seq<(string, Value)>, t: string, elem: string, optional: bool, expected: InputArgument)
    requires CLT.Processable(opts) && Get(opts, "type") == Some(VStr(t)) && t != "array"
    requires CLT.ParseTypeString(t) == (elem, false, optional)
    requires CLT.Bound(id, elem, false, optional, opts) == expected
    ensures CLT.ProcessInput(id, opts) == Success(expected)
  {
  }

  lemma DirRead()
    ensures CLT.Processable(DirOpts) && CLT.ProcessInput("dir", DirOpts) == Success(Dir)
  {
    DirProcessable();
    DirBound();
    CLT.TypeSuffixes("string");
    assert Get(DirOpts, "type") == Some(VStr("string"));
    ReadAs("dir", DirOpts, "string", "string", false, Dir);
  }

  lemma NameProcessable()
    ensures CLT.Processable(NameOpts)
  {
    var b := [("position", VInt(2)), ("prefix", VStr("-name"))];
    assert Get(NameOpts, "type") == Some(VStr("string"));
    assert Get(NameOpts, "inputBinding") == Some(VDict(b));
    assert Get(b, "prefix") == Some(VStr("-name"));
  }

  lemma NameBound()
    ensures CLT.Bound("name", "string", false, false, NameOpts) == Name
  {
    var b := [("position", VInt(2)), ("prefix", VStr("-name"))];
    assert SubDict(NameOpts, "inputBinding") == b;
    assert Get(b, "prefix") == Some(VStr("-name"));
    assert GetOr(NameOpts, "default", VNone) == VNone;
  }

  lemma NameRead()
    ensures CLT.Processable(NameOpts) && CLT.ProcessInput("name", NameOpts) == Success(Name)
  {
    NameProcessable();
    NameBound();
    CLT.TypeSuffixes("string");
    assert Get(NameOpts, "type") == Some(VStr("string"));
    ReadAs("name", NameOpts, "string", "string", false, Name);
  }

  lemma MaxdepthProcessable()
    ensures CLT.Processable(MaxdepthOpts)
  {
    var b := [("position", VInt(3)), ("prefix", VStr("-maxdepth"))];
    assert Get(MaxdepthOpts, "type") == Some(VStr("int?"));
    assert Get(MaxdepthOpts, "inputBinding") == Some(VDict(b));
    assert Get(b, "prefix") == Some(VStr("-maxdepth"));
  }

  lemma MaxdepthBound()
    ensures CLT.Bound("maxdepth", "int", false, true, MaxdepthOpts) == Maxdepth
  {
    var b := [("position", VInt(3)), ("prefix", VStr("-maxdepth"))];
    assert SubDict(MaxdepthOpts, "inputBinding") == b;
    assert Get(b, "prefix") == Some(VStr("-maxdepth"));
    assert GetOr(MaxdepthOpts, "default", VNone) == VInt(3);
  }

  lemma OptionalIntParsed()
    ensures CLT.ParseTypeString("int?") == ("int", false, true)
  {
    CLT.TypeSuffixes("int");
    assert "int" + "?" == "int?";
  }

  lemma MaxdepthRead()
    ensures CLT.Processable(MaxdepthOpts) && CLT.ProcessInput("maxdepth", MaxdepthOpts) == Success(Maxdepth)
  {
    MaxdepthProcessable();
    MaxdepthBound();
    OptionalIntParsed();
    assert Get(MaxdepthOpts, "type") == Some(VStr("int?"));
    ReadAs("maxdepth", MaxdepthOpts, "int?", "int", true, Maxdepth);
  }

  lemma FindInputsDeclared()
    ensures CLT.DeclShaped(FindInputs)
    ensures CLT.Declared(FindInputs) == [("dir", DirOpts), ("name", NameOpts), ("maxdepth", MaxdepthOpts)]
  {
  }

  lemma FindInputsShaped()
    ensures CLT.InputsShaped(FindInputs)
  {
    FindInputsDeclared();
    DirProcessable();
    NameProcessable();
    MaxdepthProcessable();
  }

  lemma FindInputsRead()
    ensures CLT.InputsShaped(FindInputs)
    ensures CLT.ProcessInputs(CLT.Declared(FindInputs)) == Success([Dir, Name, Maxdepth])
  {
    FindInputsShaped();
    FindInputsDeclared();
    var decl := CLT.Declared(FindInputs);
    var f := CLT.InputProcessor();
    var xs := [Dir, Name, Maxdepth];
    forall i | 0 <= i < |decl| ensures f.requires(decl[i]) && f(decl[i]) == Success(xs[i]) {
      if i == 0 {
        DirRead();
      } else if i == 1 {
        NameRead();
      } else {
        MaxdepthRead();
      }
    }
    MapAllSucceeds(f, decl, xs);
  }

  lemma FindOutputsDeclared()
    ensures CLT.DeclShaped(FindOutputs)
    ensures CLT.Declared(FindOutputs) == [("example_out", OutOpts)]
  {
  }

  lemma ExampleOutRead()
    ensures CLT.OutputProcessable(OutOpts) && CLT.ProcessOutput("example_out", OutOpts) == Success(ExampleOut)
  {
    assert Get(OutOpts, "type") == Some(VStr("stdout"));
    RStripUnique("stdout", {'[', ']'}, "stdout");
    NotContainsFirst("stdout", "[]");
  }

  lemma FindOutputsRead()
    ensures CLT.OutputsShaped(FindOutputs)
    ensures CLT.ProcessOutputs(CLT.Declared(FindOutputs)) == Success([ExampleOut])
  {
    FindOutputsDeclared();
    ExampleOutRead();
    var decl := CLT.Declared(FindOutputs);
    var f := CLT.OutputProcessor();
    assert f(decl[0]) == Success(ExampleOut);
    MapAllSucceeds(f, decl, [ExampleOut]);
  }

  lemma FindDocEntries()
    ensures Get(FindDoc.entries, "baseCommand") == Some(VStr("find"))
    ensures Get(FindDoc.entries, "inputs") == Some(FindInputs)
    ensures Get(FindDoc.entries, "outputs") == Some(FindOutputs)
  {
    var e := FindDoc.entries;
    GetFirst(e, 2, "baseCommand");
    GetFirst(e, 3, "inputs");
    GetFirst(e, 4, "outputs");
  }

  /** The current revision reads the three inputs and the stdout output, in declaration order. */
  lemma FindConfigured()
    ensures CLT.Loadable(FindDoc)
    ensures CLT.Configure(FindDoc) == Success(CLT.Config("find", [Dir, Name, Maxdepth], [ExampleOut]))
  {
    FindDocValid();
    CLT.ValidCwlLoadable(FindDoc);
    FindDocEntries();
    FindInputsRead();
    FindOutputsRead();
  }

  // ------------------------------------------------------------ the command

  /** Whatever order the sort leaves, the find inputs come out by position. */
  lemma FindSortedOrder(xs: seq<InputArgument>)
    requires Sorted(xs) && multiset(xs) == multiset([Dir, Name, Maxdepth])
    ensures xs == [Dir, Name, Maxdepth]
  {
    var ys := [Dir, Name, Maxdepth];
    assert AllPositioned(ys) && DistinctPositions(ys);
    SortedPermutationUnique(ys, xs);
  }

  /** Three inputs that each contribute a token make the base command and the three tokens. */
  lemma ThreeTokens(render: Renderer, base: string, a: InputArgument, b: InputArgument, c: InputArgument,
                    kwargs: map<string, Value>, ta: string, tb: string, tc: string)
    requires Resolve(render, a, kwargs) == Success(Some(ta))
    requires Resolve(render, b, kwargs) == Success(Some(tb))
    requires Resolve(render, c, kwargs) == Success(Some(tc))
    ensures Command(render, base, [a, b, c], kwargs) == Success(base + " " + ta + " " + tb + " " + tc)
  {
    var ab, abc := [a, b], [a, b, c];
    assert [a][..0] == [] && [a][0] == a;
    assert [] + [ta] == [ta];
    assert Tokens(render, [a], kwargs) == Success([ta]);
    assert ab[..1] == [a] && ab[1] == b;
    assert [ta] + [tb] == [ta, tb];
    assert Tokens(render, ab, kwargs) == Success([ta, tb]);
    assert abc[..2] == ab && abc[2] == c;
    assert [ta, tb] + [tc] == [ta, tb, tc];
    assert Tokens(render, abc, kwargs) == Success([ta, tb, tc]);
    assert [ta, tb, tc][..2] == [ta, tb] && [ta, tb][..1] == [ta];
    assert Join(" ", [ta, tb]) == ta + " " + tb;
    assert Join(" ", [ta, tb, tc]) == ta + " " + tb + " " + tc;
    assert base + " " + Join(" ", [ta, tb, tc]) == base + " " + ta + " " + tb + " " + tc;
  }

  /** Under the current revision each input contributes its token to either call. */
  lemma CurrentTokens(kwargs: map<string, Value>)
    requires "dir" in kwargs && "name" in kwargs
    requires kwargs["dir"] == VStr(".") && kwargs["name"] == VStr("*.cwl")
    requires "maxdepth" in kwargs ==> kwargs["maxdepth"] == VInt(3)
    ensures Resolve(CLT.ToString, Dir, kwargs) == Success(Some("'.'"))
    ensures Resolve(CLT.ToString, Name, kwargs) == Success(Some("-name '*.cwl'"))
    ensures Resolve(CLT.ToString, Maxdepth, kwargs) == Success(Some("-maxdepth 3"))
  {
    assert IntToString(3) == "3" by {
      assert NatToString(3) == [DigitChar(3)];
    }
    assert "'" + "." + "'" == "'.'";
    assert CLT.ToString(Dir, VStr(".")) == Success("'.'");
    assert "-name" + " " + ("'" + "*.cwl" + "'") == "-name '*.cwl'";
    assert CLT.ToString(Name, VStr("*.cwl")) == Success("-name '*.cwl'");
    assert Str(VInt(3)) == "3";
    assert "" + "3" + "" == "3";
    assert "-maxdepth" + " " + "3" == "-maxdepth 3";
    assert CLT.ToString(Maxdepth, VInt(3)) == Success("-maxdepth 3");
    assert CLT.ToString(Maxdepth, VNone) == Success("-maxdepth 3");
  }

  lemma FindLiteral()
    ensures "find" + " " + "'.'" + " " + "-name '*.cwl'" + " " + "-maxdepth 3" == FindCommand
  {
  }

  lemma ScriptFindLiteral()
    ensures "find" + " " + "." + " " + "-name *.cwl" + " " + "-maxdepth 3" == "find . -name *.cwl -maxdepth 3"
  {
  }

  /** The current revision gives the reference command for both calls of the test. */
  lemma FindCommandCurrent(out: string)
    ensures Command(CLT.ToString, "find", [Dir, Name, Maxdepth], WithMaxdepth(out)) == Success(FindCommand)
    ensures Command(CLT.ToString, "find", [Dir, Name, Maxdepth], WithoutMaxdepth(out)) == Success(FindCommand)
  {
    FindLiteral();
    CurrentTokens(WithMaxdepth(out));
    ThreeTokens(CLT.ToString, "find", Dir, Name, Maxdepth, WithMaxdepth(out), "'.'", "-name '*.cwl'", "-maxdepth 3");
    CurrentTokens(WithoutMaxdepth(out));
    ThreeTokens(CLT.ToString, "find", Dir, Name, Maxdepth, WithoutMaxdepth(out), "'.'", "-name '*.cwl'", "-maxdepth 3");
  }

  /**
   * For the test's first call the bash app receives the reference command,
   * the stdout target given as `example_out`, and no files.
   */
  lemma FindBashArgs(out: string)
    ensures CLT.BashArgs("find", [Dir, Name, Maxdepth], [ExampleOut], WithMaxdepth(out)) ==
      Success(BashAppArgs(FindCommand, Some(VStr(out)), None, [], []))
  {
    var kw := WithMaxdepth(out);
    FindCommandCurrent(out);
    assert [ExampleOut][..0] == [];
    assert CheckOutputs([ExampleOut], kw) == Success(Streams(Some(VStr(out)), None));
    NoFiles(InputSlots([Dir, Name, Maxdepth], true), kw);
    NoFiles(OutputSlots([ExampleOut], true), kw);
  }

  /** Slots of no File type contribute no file. */
  lemma {:induction false} NoFiles(slots: seq<FileSlot>, kwargs: map<string, Value>)
    requires forall k :: 0 <= k < |slots| ==> slots[k].typ != FILE
    ensures CollectFiles(slots, kwargs) == Success([])
    decreases |slots|
  {
    if slots != [] {
      NoFiles(slots[..|slots| - 1], kwargs);
      var none: seq<Value> := [];
      assert none + none == none;
    }
  }

  /**
   * The whole chain of the current revision: loading the document and
   * asking for the command with and without `maxdepth` both give the
   * reference command, and the first call's bash-app arguments send the
   * output to the given file.
   */
  method FindScenario(out: string) returns (withDepth: Result<string>, withoutDepth: Result<string>, app: Result<BashAppArgs>)
    ensures withDepth == Success(FindCommand) && withoutDepth == Success(FindCommand)
    ensures app == Success(BashAppArgs(FindCommand, Some(VStr(out)), None, [], []))
  {
    FindDocValid();
    FindConfigured();
    var loaded := CLT.Tool.Load(FindDoc);
    var tool := loaded.value;
    FindSortedOrder(tool.inputs);
    FindCommandCurrent(out);
    FindBashArgs(out);
    withDepth := tool.GetCommand(WithMaxdepth(out));
    withoutDepth := tool.GetCommand(WithoutMaxdepth(out));
    app := tool.ParslBashAppArgs(WithMaxdepth(out));
  }

  // ------------------------------------------------------- older revisions

  lemma PackageTokens(kwargs: map<string, Value>)
    requires "dir" in kwargs && "name" in kwargs
    requires kwargs["dir"] == VStr(".") && kwargs["name"] == VStr("*.cwl")
    requires "maxdepth" in kwargs ==> kwargs["maxdepth"] == VInt(3)
    ensures Resolve(Pkg.ToString, Dir, kwargs) == Success(Some("'.'"))
    ensures Resolve(Pkg.ToString, Name, kwargs) == Success(Some("-name '*.cwl'"))
    ensures Resolve(Pkg.ToString, Maxdepth, kwargs) == Success(Some("-maxdepth 3"))
  {
    assert "'" + "." + "'" == "'.'";
    assert Pkg.ToString(Dir, VStr(".")) == Success("'.'");
    assert "-name" + " " + ("'" + "*.cwl" + "'") == "-name '*.cwl'";
    assert Pkg.ToString(Name, VStr("*.cwl")) == Success("-name '*.cwl'");
    assert Str(VInt(3)) == "3" by {
      assert NatToString(3) == [DigitChar(3)];
    }
    assert "" + "3" + "" == "3";
    assert "-maxdepth" + " " + "3" == "-maxdepth 3";
    assert Pkg.ToString(Maxdepth, VInt(3)) == Success("-maxdepth 3");
    assert Pkg.ToString(Maxdepth, VNone) == Success("-maxdepth 3");
  }

  /** cwl/cwl.py quotes exactly as the current revision here, so it gives the same command. */
  lemma FindCommandPackage(out: string)
    ensures Command(Pkg.ToString, "find", [Dir, Name, Maxdepth], WithMaxdepth(out)) == Success(FindCommand)
    ensures Command(Pkg.ToString, "find", [Dir, Name, Maxdepth], WithoutMaxdepth(out)) == Success(FindCommand)
  {
    FindLiteral();
    PackageTokens(WithMaxdepth(out));
    ThreeTokens(Pkg.ToString, "find", Dir, Name, Maxdepth, WithMaxdepth(out), "'.'", "-name '*.cwl'", "-maxdepth 3");
    PackageTokens(WithoutMaxdepth(out));
    ThreeTokens(Pkg.ToString, "find", Dir, Name, Maxdepth, WithoutMaxdepth(out), "'.'", "-name '*.cwl'", "-maxdepth 3");
  }

  lemma ScriptTokens(kwargs: map<string, Value>)
    requires "dir" in kwargs && "name" in kwargs
    requires kwargs["dir"] == VStr(".") && kwargs["name"] == VStr("*.cwl")
    requires "maxdepth" in kwargs ==> kwargs["maxdepth"] == VInt(3)
    ensures Resolve(Script.ToString, Dir, kwargs) == Success(Some("."))
    ensures Resolve(Script.ToString, Name, kwargs) == Success(Some("-name *.cwl"))
    ensures Resolve(Script.ToString, Maxdepth, kwargs) == Success(Some("-maxdepth 3"))
  {
    assert Script.ToString(Dir, VStr(".")) == Success(".");
    assert "-name" + " " + "*.cwl" == "-name *.cwl";
    assert Script.ToString(Name, VStr("*.cwl")) == Success("-name *.cwl");
    assert Str(VInt(3)) == "3" by {
      assert NatToString(3) == [DigitChar(3)];
    }
    assert "-maxdepth" + " " + "3" == "-maxdepth 3";
    assert Script.ToString(Maxdepth, VInt(3)) == Success("-maxdepth 3");
    assert Script.ToString(Maxdepth, VNone) == Success("-maxdepth 3");
  }

  lemma FindCallSizes(out: string)
    ensures |WithMaxdepth(out)| == 4 && |WithoutMaxdepth(out)| == 3
  {
    assert WithMaxdepth(out).Keys == {"dir", "maxdepth", "name", "example_out"};
    assert WithoutMaxdepth(out).Keys == {"dir", "name", "example_out"};
  }

  /**
   * cwl.py counts `example_out` among the keyword values, so the test's
   * first call (four values, three inputs) raises; the second renders
   * without any quotes.
   */
  lemma FindCommandScript(out: string)
    ensures Script.ScriptCommand("find", [Dir, Name, Maxdepth], WithMaxdepth(out)) == Failure(TooManyArguments)
    ensures Script.ScriptCommand("find", [Dir, Name, Maxdepth], WithoutMaxdepth(out)) ==
      Success("find . -name *.cwl -maxdepth 3")
  {
    FindCallSizes(out);
    ScriptFindLiteral();
    ScriptTokens(WithoutMaxdepth(out));
    ThreeTokens(Script.ToString, "find", Dir, Name, Maxdepth, WithoutMaxdepth(out), ".", "-name *.cwl", "-maxdepth 3");
  }

  // ------------------------------------------------------- the prototype

  const NkDir := VDict(Nk.Merged("dir", DirOpts))
  const NkName := VDict(Nk.Merged("name", NameOpts))
  const NkMaxdepth := VDict(Nk.Merged("maxdepth", MaxdepthOpts))

  /** nk/cwl.py turns the mapping form into three dictionaries, each with its id. */
  lemma NkNormalised()
    ensures Nk.Normalise(FindInputs) == Success([NkDir, NkName, NkMaxdepth])
  {
    var e := FindInputs.entries;
    var xs := [NkDir, NkName, NkMaxdepth];
    forall i | 0 <= i < |e| ensures Nk.MergeEntry(e[i]) == Success(xs[i]) {
    }
    MapAllSucceeds(Nk.MergeEntry, e, xs);
  }

  /** Looking up a merged dictionary whose options carry no "id". */
  lemma NkLookup(id: string, opts: seq<(string, Value)>, key: string)
    requires !HasKey(opts, "id")
    ensures Get(Nk.Merged(id, opts), key) == (if key == "id" then Some(VStr(id)) else Get(opts, key))
  {
    Nk.MergedLookup(id, opts, key);
  }

  /** A supplied input of the prototype picks the supplied value. */
  lemma NkSupplied(id: string, opts: seq<(string, Value)>, kwargs: map<string, Value>, t: Value)
    requires !HasKey(opts, "id") && Get(opts, "type") == Some(t) && id in kwargs
    ensures Nk.Pick(VDict(Nk.Merged(id, opts)), kwargs) == Success(Some(Nk.Arg(kwargs[id], t)))
  {
    NkLookup(id, opts, "id");
    NkLookup(id, opts, "type");
    Nk.SuppliedValueUsed(VDict(Nk.Merged(id, opts)), kwargs, id, t);
  }

  /** An input left out picks its default when it has one, and is skipped otherwise. */
  lemma NkNotSupplied(id: string, opts: seq<(string, Value)>, kwargs: map<string, Value>, t: Value)
    requires !HasKey(opts, "id") && Get(opts, "type") == Some(t) && id !in kwargs
    ensures Nk.Pick(VDict(Nk.Merged(id, opts)), kwargs) ==
      if HasKey(opts, "default") then Success(Some(Nk.Arg(Get(opts, "default").value, t))) else Success(None)
  {
    var v := VDict(Nk.Merged(id, opts));
    NkLookup(id, opts, "id");
    NkLookup(id, opts, "type");
    NkLookup(id, opts, "default");
    assert HasKey(v.entries, "default") == HasKey(opts, "default");
    if HasKey(opts, "default") {
      Nk.DefaultUsedByPresence(v, kwargs);
    } else {
      Nk.UnsuppliedSkipped(v, kwargs, id);
    }
  }

  lemma NkOptsFacts()
    ensures !HasKey(DirOpts, "id") && !HasKey(DirOpts, "default") && Get(DirOpts, "type") == Some(VStr("string"))
    ensures !HasKey(NameOpts, "id") && Get(NameOpts, "type") == Some(VStr("string"))
    ensures !HasKey(MaxdepthOpts, "id") && Get(MaxdepthOpts, "type") == Some(VStr("int?"))
    ensures Get(MaxdepthOpts, "default") == Some(VInt(3))
  {
  }

  /** The tokens the prototype makes of the dropped-or-kept find inputs. */
  lemma NkThreeSomes(x: Option<Nk.Arg>, y: Nk.Arg, z: Nk.Arg)
    ensures Nk.Somes([x, Some(y), Some(z)]) == (if x.Some? then [x.value] else []) + [y, z]
  {
    var ps := [x, Some(y), Some(z)];
    assert ps[..2] == [x, Some(y)] && ps[..2][..1] == [x] && ps[..2][..1][..0] == [];
    var first := if x.Some? then [x.value] else [];
    assert Nk.Somes([x]) == first;
    assert Nk.Somes([x, Some(y)]) == first + [y];
    assert first + [y] + [z] == first + [y, z];
  }

  lemma JoinThree(x: string, y: string, z: string)
    ensures Join(" ", [x, y, z]) == x + " " + y + " " + z
  {
    assert [x, y, z][..2] == [x, y];
    JoinTwo(x, y);
  }

  lemma JoinTwo(x: string, y: string)
    ensures Join(" ", [x, y]) == x + " " + y
  {
    assert [x, y][..1] == [x];
  }

  const NkFindCommand := "find \".\" \"*.cwl\" 3"

  /** The text the prototype joins from a skipped-or-kept first pick and two kept ones. */
  lemma NkTextOfThree(x: Option<Nk.Arg>, b: Nk.Arg, c: Nk.Arg)
    ensures Join(" ", Nk.Tokens(Nk.Somes([x, Some(b), Some(c)]))) ==
      (if x.Some? then Nk.Token(x.value) + " " else "") + Nk.Token(b) + " " + Nk.Token(c)
  {
    NkThreeSomes(x, b, c);
    if x.Some? {
      assert [x.value] + [b, c] == [x.value, b, c];
      assert Nk.Tokens([x.value, b, c]) == [Nk.Token(x.value), Nk.Token(b), Nk.Token(c)];
      JoinThree(Nk.Token(x.value), Nk.Token(b), Nk.Token(c));
    } else {
      assert [] + [b, c] == [b, c];
      assert Nk.Tokens([b, c]) == [Nk.Token(b), Nk.Token(c)];
      JoinTwo(Nk.Token(b), Nk.Token(c));
    }
  }

  /** The prototype's command over three inputs, once each input's pick is known. */
  lemma NkCommandOfThree(base: Value, x: Value, y: Value, z: Value, kwargs: map<string, Value>,
                         px: Option<Nk.Arg>, b: Nk.Arg, c: Nk.Arg)
    requires Nk.Pick(x, kwargs) == Success(px) && Nk.Pick(y, kwargs) == Success(Some(b)) && Nk.Pick(z, kwargs) == Success(Some(c))
    ensures Nk.NkCommand(base, [x, y, z], kwargs) ==
      Success(Str(base) + " " + ((if px.Some? then Nk.Token(px.value) + " " else "") + Nk.Token(b) + " " + Nk.Token(c)))
  {
    var ins, picks := [x, y, z], [px, Some(b), Some(c)];
    forall k | 0 <= k < 3
      ensures Nk.Pick(ins[k], kwargs) == Success(picks[k])
    {
      if k == 0 {
        assert ins[k] == x && picks[k] == px;
      } else if k == 1 {
        assert ins[k] == y && picks[k] == Some(b);
      } else {
        assert ins[k] == z && picks[k] == Some(c);
      }
    }
    Nk.CommandInDeclarationOrder(base, ins, kwargs);
    assert Nk.Picks(ins, kwargs) == picks;
    NkTextOfThree(px, b, c);
  }

  /** How the prototype renders the three find values. */
  lemma NkFindTokens()
    ensures Nk.Token(Nk.Arg(VStr("."), VStr("string"))) == "\".\""
    ensures Nk.Token(Nk.Arg(VStr("*.cwl"), VStr("string"))) == "\"*.cwl\""
    ensures Nk.Token(Nk.Arg(VInt(3), VStr("int?"))) == "3"
  {
    assert Str(VInt(3)) == "3" by {
      assert NatToString(3) == [DigitChar(3)];
    }
    assert "\"" + "." + "\"" == "\".\"";
    assert "\"" + "*.cwl" + "\"" == "\"*.cwl\"";
  }

  /** The picks of the find inputs when `dir` and `name` are supplied. */
  lemma NkFindPicks(kwargs: map<string, Value>)
    requires "dir" in kwargs && "name" in kwargs
    requires kwargs["dir"] == VStr(".") && kwargs["name"] == VStr("*.cwl")
    requires "maxdepth" in kwargs ==> kwargs["maxdepth"] == VInt(3)
    ensures Nk.Pick(NkDir, kwargs) == Success(Some(Nk.Arg(VStr("."), VStr("string"))))
    ensures Nk.Pick(NkName, kwargs) == Success(Some(Nk.Arg(VStr("*.cwl"), VStr("string"))))
    ensures Nk.Pick(NkMaxdepth, kwargs) == Success(Some(Nk.Arg(VInt(3), VStr("int?"))))
  {
    NkOptsFacts();
    NkSupplied("dir", DirOpts, kwargs, VStr("string"));
    NkSupplied("name", NameOpts, kwargs, VStr("string"));
    if "maxdepth" in kwargs {
      NkSupplied("maxdepth", MaxdepthOpts, kwargs, VStr("int?"));
    } else {
      NkNotSupplied("maxdepth", MaxdepthOpts, kwargs, VStr("int?"));
    }
  }

  /**
   * The prototype ignores the bindings: no prefixes, no sorting, string
   * values in double quotes; `maxdepth` comes from the default when it is
   * not supplied.
   */
  lemma FindCommandNk(out: string)
    ensures Nk.NkCommand(VStr("find"), [NkDir, NkName, NkMaxdepth], WithMaxdepth(out)) == Success(NkFindCommand)
    ensures Nk.NkCommand(VStr("find"), [NkDir, NkName, NkMaxdepth], WithoutMaxdepth(out)) == Success(NkFindCommand)
  {
    var a1, a2, a3 := Nk.Arg(VStr("."), VStr("string")), Nk.Arg(VStr("*.cwl"), VStr("string")), Nk.Arg(VInt(3), VStr("int?"));
    NkFindTokens();
    NkFindLiteral();
    NkFindPicks(WithMaxdepth(out));
    NkCommandOfThree(VStr("find"), NkDir, NkName, NkMaxdepth, WithMaxdepth(out), Some(a1), a2, a3);
    NkFindPicks(WithoutMaxdepth(out));
    NkCommandOfThree(VStr("find"), NkDir, NkName, NkMaxdepth, WithoutMaxdepth(out), Some(a1), a2, a3);
  }

  lemma NkFindLiteral()
    ensures Str(VStr("find")) + " " + (("\".\"" + " ") + "\"*.cwl\"" + " " + "3") == NkFindCommand
  {
    assert Str(VStr("find")) == "find";
    var rest := ("\".\"" + " ") + "\"*.cwl\"" + " " + "3";
    assert rest == "\".\" \"*.cwl\" 3";
  }

  /** The keyword values of a call that leaves out `dir`. */
  const NoDir: map<string, Value> := map["name" := VStr("*.cwl")]

  /** The current revision raises the missing-parameter error for `dir`. */
  lemma MissingDirCurrent()
    ensures Command(CLT.ToString, "find", [Dir, Name, Maxdepth], NoDir) == Failure(MissingInput("dir"))
  {
    var xs := [Dir, Name, Maxdepth];
    assert xs[..1] == [Dir] && [Dir][..0] == [];
    assert Tokens(CLT.ToString, xs[..1], NoDir) == Failure(MissingInput("dir"));
    FailurePersists(CLT.ToString, xs, NoDir, 1);
  }

  /** Without `dir`, its input is skipped and the other two are picked as before. */
  lemma NkMissingDirPicks()
    ensures Nk.Pick(NkDir, NoDir) == Success(None)
    ensures Nk.Pick(NkName, NoDir) == Success(Some(Nk.Arg(VStr("*.cwl"), VStr("string"))))
    ensures Nk.Pick(NkMaxdepth, NoDir) == Success(Some(Nk.Arg(VInt(3), VStr("int?"))))
  {
    NkOptsFacts();
    NkNotSupplied("dir", DirOpts, NoDir, VStr("string"));
    NkSupplied("name", NameOpts, NoDir, VStr("string"));
    NkNotSupplied("maxdepth", MaxdepthOpts, NoDir, VStr("int?"));
  }

  /** The prototype drops `dir` and builds the rest of the command. */
  lemma MissingDirNk()
    ensures Nk.NkCommand(VStr("find"), [NkDir, NkName, NkMaxdepth], NoDir) == Success("find \"*.cwl\" 3")
  {
    var a2, a3 := Nk.Arg(VStr("*.cwl"), VStr("string")), Nk.Arg(VInt(3), VStr("int?"));
    var none: Option<Nk.Arg> := None;
    NkMissingDirPicks();
    NkCommandOfThree(VStr("find"), NkDir, NkName, NkMaxdepth, NoDir, none, a2, a3);
    NkFindTokens();
    assert Str(VStr("find")) == "find";
    MissingDirLiteral();
  }

  lemma MissingDirLiteral()
    ensures "find" + " " + ("" + "\"*.cwl\"" + " " + "3") == "find \"*.cwl\" 3"
  {
    var rest := "\"*.cwl\"" + " " + "3";
    assert "" + "\"*.cwl\"" == "\"*.cwl\"";
    assert rest == "\"*.cwl\" 3";
  }
}
