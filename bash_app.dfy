/**
 * The checks and lists that build the keyword arguments of the parsl bash
 * app: `__get_parsl_bash_app_args` of cwl/command_line_tool.py and
 * `get_parsl_command_args` of cwl/cwl.py. Each declared output of type
 * stdout, stderr or File must have a value; the last stdout and stderr
 * values are kept; the values of File-typed arguments become the app's
 * input and output file lists.
 */
module BashApp {
  import opened PyValue
  import opened Arguments

  /** The keyword arguments handed to the bash app. */
  datatype BashAppArgs = BashAppArgs(
    command: string,
    stdout: Option<Value>,
    stderr: Option<Value>,
    inputs: seq<Value>,     // each value is wrapped in a parsl File by the source
    outputs: seq<Value>)

  datatype Streams = Streams(stdout: Option<Value>, stderr: Option<Value>)

  /** An output the check loop insists on a keyword value for. */
  predicate NeedsValue(o: OutputArgument)
  {
    o.typ == "stdout" || o.typ == "stderr" || o.typ == FILE
  }

  function MissingError(o: OutputArgument): Error
    requires NeedsValue(o)
  {
    if o.typ == "stdout" then MissingStdout
    else if o.typ == "stderr" then MissingStderr
    else MissingOutputFile(o.id)
  }

  /** One turn of the output check loop. */
  function CheckOutput(st: Streams, o: OutputArgument, kwargs: map<string, Value>): Result<Streams>
  {
    if NeedsValue(o) && o.id !in kwargs then Failure(MissingError(o))
    else if o.typ == "stdout" then Success(st.(stdout := Some(kwargs[o.id])))
    else if o.typ == "stderr" then Success(st.(stderr := Some(kwargs[o.id])))
    else Success(st)
  }

  /** The output check loop over `outs`, starting from no stdout and no stderr. */
  function CheckOutputs(outs: seq<OutputArgument>, kwargs: map<string, Value>): Result<Streams>
  {
    if outs == [] then Success(Streams(None, None))
    else
      match CheckOutputs(outs[..|outs| - 1], kwargs)
      case Failure(e) => Failure(e)
      case Success(st) => CheckOutput(st, outs[|outs| - 1], kwargs)
  }

  lemma {:induction false} CheckFailurePersists(outs: seq<OutputArgument>, kwargs: map<string, Value>, n: int)
    requires 0 <= n <= |outs|
    requires CheckOutputs(outs[..n], kwargs).Failure?
    ensures CheckOutputs(outs, kwargs) == CheckOutputs(outs[..n], kwargs)
    decreases |outs| - n
  {
    if n < |outs| {
      assert outs[..n + 1][..n] == outs[..n];
      CheckFailurePersists(outs, kwargs, n + 1);
    } else {
      assert outs[..n] == outs;
    }
  }

  method CheckOutputsLoop(outs: seq<OutputArgument>, kwargs: map<string, Value>) returns (r: Result<Streams>)
    ensures r == CheckOutputs(outs, kwargs)
  {
    var stdout: Option<Value> := None;
    var stderr: Option<Value> := None;
    var i := 0;
    while i < |outs|
      invariant 0 <= i <= |outs|
      invariant CheckOutputs(outs[..i], kwargs) == Success(Streams(stdout, stderr))
    {
      var o := outs[i];
      assert outs[..i + 1][..i] == outs[..i];
      if o.typ == "stdout" {
        if o.id !in kwargs {
          CheckFailurePersists(outs, kwargs, i + 1);
          return Failure(MissingStdout);
        }
        stdout := Some(kwargs[o.id]);
      }
      if o.typ == "stderr" {
        if o.id !in kwargs {
          CheckFailurePersists(outs, kwargs, i + 1);
          return Failure(MissingStderr);
        }
        stderr := Some(kwargs[o.id]);
      }
      if o.typ == FILE && o.id !in kwargs {
        CheckFailurePersists(outs, kwargs, i + 1);
        return Failure(MissingOutputFile(o.id));
      }
      i := i + 1;
    }
    assert outs[..|outs|] == outs;
    r := Success(Streams(stdout, stderr));
  }

  /** `outs[i]` needs a value and has none. */
  predicate Unmet(outs: seq<OutputArgument>, kwargs: map<string, Value>, i: int)
    requires 0 <= i < |outs|
  {
    NeedsValue(outs[i]) && outs[i].id !in kwargs
  }

  /** The checks pass exactly when every stdout, stderr and File output has a value. */
  lemma {:induction false} OutputsCheckedIff(outs: seq<OutputArgument>, kwargs: map<string, Value>)
    ensures CheckOutputs(outs, kwargs).Success? <==> forall i :: 0 <= i < |outs| ==> !Unmet(outs, kwargs, i)
    decreases |outs|
  {
    if outs != [] {
      var n := |outs|;
      var init := outs[..n - 1];
      OutputsCheckedIff(init, kwargs);
      assert forall i :: 0 <= i < n - 1 ==> init[i] == outs[i];
      assert forall i :: 0 <= i < n - 1 ==> (Unmet(init, kwargs, i) <==> Unmet(outs, kwargs, i));
      if CheckOutputs(init, kwargs).Success? {
        var st := CheckOutputs(init, kwargs).value;
        assert CheckOutputs(outs, kwargs) == CheckOutput(st, outs[n - 1], kwargs);
        assert CheckOutput(st, outs[n - 1], kwargs).Success? <==> !Unmet(outs, kwargs, n - 1);
      }
    }
  }

  /** The first output without a value decides the message. */
  lemma {:induction false} FirstUnmetOutputReported(outs: seq<OutputArgument>, kwargs: map<string, Value>, i: int)
    requires 0 <= i < |outs| && Unmet(outs, kwargs, i)
    requires forall j :: 0 <= j < i ==> !Unmet(outs, kwargs, j)
    ensures CheckOutputs(outs, kwargs) == Failure(MissingError(outs[i]))
  {
    var pre := outs[..i];
    OutputsCheckedIff(pre, kwargs);
    assert forall j :: 0 <= j < i ==> (Unmet(pre, kwargs, j) <==> Unmet(outs, kwargs, j));
    assert outs[..i + 1][..i] == pre;
    CheckFailurePersists(outs, kwargs, i + 1);
  }

  function Stream(st: Streams, kind: string): Option<Value>
  {
    if kind == "stdout" then st.stdout else st.stderr
  }

  /**
   * After the checks pass, the stdout (stderr) value is the keyword value
   * of the LAST output of that type, and there is none when no output has
   * that type.
   */
  lemma {:induction false} LastStreamWins(outs: seq<OutputArgument>, kwargs: map<string, Value>, kind: string)
    requires kind == "stdout" || kind == "stderr"
    requires CheckOutputs(outs, kwargs).Success?
    ensures Stream(CheckOutputs(outs, kwargs).value, kind).None? <==>
      forall i :: 0 <= i < |outs| ==> outs[i].typ != kind
    ensures forall i :: 0 <= i < |outs| && outs[i].typ == kind && LastOfKind(outs, i, kind) ==>
      outs[i].id in kwargs && Stream(CheckOutputs(outs, kwargs).value, kind) == Some(kwargs[outs[i].id])
    decreases |outs|
  {
    if outs != [] {
      var n := |outs|;
      var init, last := outs[..n - 1], outs[n - 1];
      var st0 := CheckOutputs(init, kwargs).value;
      LastStreamWins(init, kwargs, kind);
      var st := CheckOutputs(outs, kwargs).value;
      assert st == CheckOutput(st0, last, kwargs).value;
      assert forall i :: 0 <= i < n - 1 ==> init[i] == outs[i];
      if last.typ == kind {
        assert Stream(st, kind) == Some(kwargs[last.id]);
        forall i | 0 <= i < n && outs[i].typ == kind && LastOfKind(outs, i, kind)
          ensures i == n - 1
        {
        }
      } else {
        assert Stream(st, kind) == Stream(st0, kind);
        forall i | 0 <= i < n && outs[i].typ == kind && LastOfKind(outs, i, kind)
          ensures outs[i].id in kwargs && Stream(st, kind) == Some(kwargs[outs[i].id])
        {
          assert LastOfKind(init, i, kind);
        }
      }
    }
  }

  /** No output after index `i` has type `kind`. */
  predicate LastOfKind(outs: seq<OutputArgument>, i: int, kind: string)
  {
    forall j :: 0 <= j < |outs| && i < j ==> outs[j].typ != kind
  }

  // ------------------------------------------------------------ file lists

  /** A declared argument, as far as the file lists look at it. */
  datatype FileSlot = FileSlot(typ: string, id: string, isArray: bool)

  /**
   * The values one argument adds to a file list: none unless it is File-typed
   * and supplied; the items of an array value (a non-iterable raises
   * TypeError); otherwise the value itself.
   */
  function FileValues(s: FileSlot, kwargs: map<string, Value>): Result<seq<Value>>
  {
    if s.typ == FILE && s.id in kwargs then
      if s.isArray then Iterate(kwargs[s.id]) else Success([kwargs[s.id]])
    else Success([])
  }

  function CollectFiles(slots: seq<FileSlot>, kwargs: map<string, Value>): Result<seq<Value>>
  {
    if slots == [] then Success([])
    else
      match CollectFiles(slots[..|slots| - 1], kwargs)
      case Failure(e) => Failure(e)
      case Success(fs) =>
        match FileValues(slots[|slots| - 1], kwargs)
        case Failure(e) => Failure(e)
        case Success(vs) => Success(fs + vs)
  }

  lemma {:induction false} FilesFailurePersists(slots: seq<FileSlot>, kwargs: map<string, Value>, n: int)
    requires 0 <= n <= |slots|
    requires CollectFiles(slots[..n], kwargs).Failure?
    ensures CollectFiles(slots, kwargs) == CollectFiles(slots[..n], kwargs)
    decreases |slots| - n
  {
    if n < |slots| {
      assert slots[..n + 1][..n] == slots[..n];
      FilesFailurePersists(slots, kwargs, n + 1);
    } else {
      assert slots[..n] == slots;
    }
  }

  /** A "list input/output files" loop. */
  method CollectFilesLoop(slots: seq<FileSlot>, kwargs: map<string, Value>) returns (r: Result<seq<Value>>)
    ensures r == CollectFiles(slots, kwargs)
  {
    var files: seq<Value> := [];
    var i := 0;
    while i < |slots|
      invariant 0 <= i <= |slots|
      invariant CollectFiles(slots[..i], kwargs) == Success(files)
    {
      var s := slots[i];
      assert slots[..i + 1][..i] == slots[..i];
      if s.typ == FILE && s.id in kwargs {
        if s.isArray {
          var items := Iterate(kwargs[s.id]);
          if items.Failure? {
            FilesFailurePersists(slots, kwargs, i + 1);
            return Failure(items.error);
          }
          files := files + items.value;
        } else {
          files := files + [kwargs[s.id]];
        }
      } else {
        assert FileValues(s, kwargs) == Success([]);
        assert files + [] == files;
      }
      i := i + 1;
    }
    assert slots[..|slots|] == slots;
    r := Success(files);
  }

  /** `v` is one of the values `s` adds to a file list. */
  predicate Contributes(s: FileSlot, kwargs: map<string, Value>, v: Value)
  {
    s.typ == FILE && s.id in kwargs &&
    if s.isArray then Iterate(kwargs[s.id]).Success? && v in Iterate(kwargs[s.id]).value
    else v == kwargs[s.id]
  }

  /**
   * A file list can only fail on a supplied File array whose value is not
   * iterable; when it succeeds it holds exactly the supplied File values,
   * array values flattened.
   */
  lemma {:induction false} FilesExact(slots: seq<FileSlot>, kwargs: map<string, Value>)
    ensures CollectFiles(slots, kwargs).Success? <==>
      forall i :: 0 <= i < |slots| ==> FileValues(slots[i], kwargs).Success?
    ensures CollectFiles(slots, kwargs).Success? ==>
      forall v :: v in CollectFiles(slots, kwargs).value <==>
        exists i :: 0 <= i < |slots| && Contributes(slots[i], kwargs, v)
    decreases |slots|
  {
    if slots != [] {
      var n := |slots|;
      var init := slots[..n - 1];
      FilesExact(init, kwargs);
      assert forall i :: 0 <= i < n - 1 ==> init[i] == slots[i];
      if CollectFiles(slots, kwargs).Success? {
        var fs := CollectFiles(init, kwargs).value;
        var vs := FileValues(slots[n - 1], kwargs).value;
        forall v
          ensures v in fs + vs <==> exists i :: 0 <= i < n && Contributes(slots[i], kwargs, v)
        {
          if v in vs {
            assert Contributes(slots[n - 1], kwargs, v);
          }
          if exists i :: 0 <= i < n && Contributes(slots[i], kwargs, v) {
            var i :| 0 <= i < n && Contributes(slots[i], kwargs, v);
            if i < n - 1 {
              assert Contributes(init[i], kwargs, v);
            }
          }
        }
      }
    }
  }

  /**
   * Without flattening (every slot marked non-array) a file list never
   * fails and holds one value per supplied File argument.
   */
  lemma {:induction false} UnflattenedFilesOnePerArgument(slots: seq<FileSlot>, kwargs: map<string, Value>)
    requires forall i :: 0 <= i < |slots| ==> !slots[i].isArray
    ensures CollectFiles(slots, kwargs).Success?
    ensures |CollectFiles(slots, kwargs).value| == |set i | 0 <= i < |slots| && slots[i].typ == FILE && slots[i].id in kwargs|
    decreases |slots|
  {
    if slots != [] {
      var n := |slots|;
      var init := slots[..n - 1];
      UnflattenedFilesOnePerArgument(init, kwargs);
      var A := set i | 0 <= i < n - 1 && init[i].typ == FILE && init[i].id in kwargs;
      var B := set i | 0 <= i < n && slots[i].typ == FILE && slots[i].id in kwargs;
      assert forall i :: 0 <= i < n - 1 ==> init[i] == slots[i];
      if slots[n - 1].typ == FILE && slots[n - 1].id in kwargs {
        assert B == A + {n - 1};
      } else {
        assert B == A;
      }
    }
  }

  // ------------------------------------------------------------ the record

  /** The file-list view of the inputs; `flatten` says whether array values are spread item by item. */
  function InputSlots(xs: seq<InputArgument>, flatten: bool): (r: seq<FileSlot>)
    ensures |r| == |xs|
    ensures forall k :: 0 <= k < |xs| ==> r[k] == FileSlot(xs[k].typ, xs[k].id, flatten && xs[k].isArray)
  {
    seq(|xs|, k requires 0 <= k < |xs| => FileSlot(xs[k].typ, xs[k].id, flatten && xs[k].isArray))
  }

  function OutputSlots(os: seq<OutputArgument>, flatten: bool): (r: seq<FileSlot>)
    ensures |r| == |os|
    ensures forall k :: 0 <= k < |os| ==> r[k] == FileSlot(os[k].typ, os[k].id, flatten && os[k].isArray)
  {
    seq(|os|, k requires 0 <= k < |os| => FileSlot(os[k].typ, os[k].id, flatten && os[k].isArray))
  }

  /**
   * The bash-app arguments: the command first (its exception wins), then
   * the output checks, then the input and output file lists.
   */
  function AppArgs(command: Result<string>, outs: seq<OutputArgument>, inSlots: seq<FileSlot>,
                   outSlots: seq<FileSlot>, kwargs: map<string, Value>): Result<BashAppArgs>
  {
    match command
    case Failure(e) => Failure(e)
    case Success(cmd) =>
      match CheckOutputs(outs, kwargs)
      case Failure(e) => Failure(e)
      case Success(st) =>
        match CollectFiles(inSlots, kwargs)
        case Failure(e) => Failure(e)
        case Success(inFiles) =>
          match CollectFiles(outSlots, kwargs)
          case Failure(e) => Failure(e)
          case Success(outFiles) => Success(BashAppArgs(cmd, st.stdout, st.stderr, inFiles, outFiles))
  }

  /**
   * The arguments are produced exactly when the command renders, every
   * stdout, stderr and File output has a value, and every supplied File
   * value the lists spread is iterable; the record then carries the
   * command, and its file lists hold exactly the supplied File values.
   */
  lemma AppArgsSucceedIff(command: Result<string>, outs: seq<OutputArgument>, inSlots: seq<FileSlot>,
                          outSlots: seq<FileSlot>, kwargs: map<string, Value>)
    ensures AppArgs(command, outs, inSlots, outSlots, kwargs).Success? <==>
      command.Success? &&
      (forall i :: 0 <= i < |outs| ==> !Unmet(outs, kwargs, i)) &&
      (forall i :: 0 <= i < |inSlots| ==> FileValues(inSlots[i], kwargs).Success?) &&
      (forall i :: 0 <= i < |outSlots| ==> FileValues(outSlots[i], kwargs).Success?)
    ensures AppArgs(command, outs, inSlots, outSlots, kwargs).Success? ==>
      var r := AppArgs(command, outs, inSlots, outSlots, kwargs).value;
      r.command == command.value &&
      (forall v :: v in r.inputs <==> exists i :: 0 <= i < |inSlots| && Contributes(inSlots[i], kwargs, v)) &&
      (forall v :: v in r.outputs <==> exists i :: 0 <= i < |outSlots| && Contributes(outSlots[i], kwargs, v))
  {
    OutputsCheckedIff(outs, kwargs);
    FilesExact(inSlots, kwargs);
    FilesExact(outSlots, kwargs);
  }

  /** The statements of `__get_parsl_bash_app_args` (and `get_parsl_command_args`) after `get_command`. */
  method BuildAppArgs(command: Result<string>, outs: seq<OutputArgument>, inSlots: seq<FileSlot>,
                      outSlots: seq<FileSlot>, kwargs: map<string, Value>) returns (r: Result<BashAppArgs>)
    ensures r == AppArgs(command, outs, inSlots, outSlots, kwargs)
  {
    if command.Failure? {
      return Failure(command.error);
    }
    var streams := CheckOutputsLoop(outs, kwargs);
    if streams.Failure? {
      return Failure(streams.error);
    }
    var inputFiles := CollectFilesLoop(inSlots, kwargs);
    if inputFiles.Failure? {
      return Failure(inputFiles.error);
    }
    var outputFiles := CollectFilesLoop(outSlots, kwargs);
    if outputFiles.Failure? {
      return Failure(outputFiles.error);
    }
    r := Success(BashAppArgs(command.value, streams.value.stdout, streams.value.stderr,
                             inputFiles.value, outputFiles.value));
  }
}
