/**
 * The value-resolution loop of `get_command`, which the three class-based
 * revisions write identically and which differs only in the `to_string`
 * each calls. For every input, in the stored (sorted) order: a supplied
 * keyword value wins; else a truthy default is rendered; else an optional
 * input is skipped; else "Input parameter(s) missing: <id>" is raised.
 */
module Resolution {
  import opened PyValue
  import opened Arguments

  /** A revision's `to_string(input_arg)`. */
  type Renderer = (InputArgument, Value) -> Result<string>

  /** The renderer raises nothing but TypeError (from iterating or joining). */
  ghost predicate RaisesOnlyTypeError(render: Renderer)
  {
    forall a, v :: render(a, v).Failure? ==> render(a, v).error == TypeError
  }

  function Lift(r: Result<string>): Result<Option<string>>
  {
    match r
    case Success(t) => Success(Some(t))
    case Failure(e) => Failure(e)
  }

  /** Neither supplied, nor defaulted by a truthy default, nor optional. */
  predicate Unresolvable(a: InputArgument, kwargs: map<string, Value>)
  {
    a.id !in kwargs && !Truthy(a.default) && !a.optional
  }

  /** What one input contributes: a token, nothing (skipped), or an exception. */
  function Resolve(render: Renderer, a: InputArgument, kwargs: map<string, Value>): Result<Option<string>>
  {
    if a.id in kwargs then Lift(render(a, kwargs[a.id]))
    else if Truthy(a.default) then Lift(render(a, VNone))
    else if a.optional then Success(None)
    else Failure(MissingInput(a.id))
  }

  /** The tokens of `xs`, in order; the first input that raises decides the error. */
  function Tokens(render: Renderer, xs: seq<InputArgument>, kwargs: map<string, Value>): Result<seq<string>>
  {
    if xs == [] then Success([])
    else
      match Tokens(render, xs[..|xs| - 1], kwargs)
      case Failure(e) => Failure(e)
      case Success(ts) =>
        match Resolve(render, xs[|xs| - 1], kwargs)
        case Failure(e) => Failure(e)
        case Success(None) => Success(ts)
        case Success(Some(t)) => Success(ts + [t])
  }

  /**
   * `f"{base} {' '.join(input_args)}"`: the separating space is there even
   * when no input contributes a token.
   */
  function Command(render: Renderer, base: string, xs: seq<InputArgument>, kwargs: map<string, Value>): (r: Result<string>)
    ensures r.Success? <==> Tokens(render, xs, kwargs).Success?
    ensures r.Success? ==> base + " " <= r.value
    ensures Tokens(render, xs, kwargs) == Success([]) ==> r == Success(base + " ")
  {
    match Tokens(render, xs, kwargs)
    case Failure(e) => Failure(e)
    case Success(ts) =>
      assert ts == [] ==> base + " " + Join(" ", ts) == base + " ";
      Success(base + " " + Join(" ", ts))
  }

  // ------------------------------------------------- the loop, as written

  lemma {:induction false} FailurePersists(render: Renderer, xs: seq<InputArgument>, kwargs: map<string, Value>, n: int)
    requires 0 <= n <= |xs|
    requires Tokens(render, xs[..n], kwargs).Failure?
    ensures Tokens(render, xs, kwargs) == Tokens(render, xs[..n], kwargs)
    decreases |xs| - n
  {
    if n < |xs| {
      assert xs[..n + 1][..n] == xs[..n];
      FailurePersists(render, xs, kwargs, n + 1);
    } else {
      assert xs[..n] == xs;
    }
  }

  /** The `for input_arg in self.__inputs` loop of `get_command`. */
  method CollectTokens(render: Renderer, inputs: seq<InputArgument>, kwargs: map<string, Value>)
    returns (r: Result<seq<string>>)
    ensures r == Tokens(render, inputs, kwargs)
  {
    var inputArgs: seq<string> := [];
    var i := 0;
    while i < |inputs|
      invariant 0 <= i <= |inputs|
      invariant Tokens(render, inputs[..i], kwargs) == Success(inputArgs)
    {
      var a := inputs[i];
      assert inputs[..i + 1][..i] == inputs[..i];
      if a.id in kwargs {
        var t := render(a, kwargs[a.id]);
        if t.Failure? {
          FailurePersists(render, inputs, kwargs, i + 1);
          return Failure(t.error);
        }
        inputArgs := inputArgs + [t.value];
      } else if Truthy(a.default) {
        var t := render(a, VNone);
        if t.Failure? {
          FailurePersists(render, inputs, kwargs, i + 1);
          return Failure(t.error);
        }
        inputArgs := inputArgs + [t.value];
      } else if a.optional {
      } else {
        FailurePersists(render, inputs, kwargs, i + 1);
        return Failure(MissingInput(a.id));
      }
      i := i + 1;
    }
    assert inputs[..|inputs|] == inputs;
    r := Success(inputArgs);
  }

  // ------------------------------------------------------------ properties

  /** The contributions read front to back: the reference reading of the loop. */
  function Contributions(render: Renderer, xs: seq<InputArgument>, kwargs: map<string, Value>): seq<string>
    requires forall i :: 0 <= i < |xs| ==> Resolve(render, xs[i], kwargs).Success?
  {
    if xs == [] then []
    else
      (match Resolve(render, xs[0], kwargs).value
       case None => []
       case Some(t) => [t])
      + Contributions(render, xs[1..], kwargs)
  }

  lemma {:induction false} ContributionsAppend(render: Renderer, xs: seq<InputArgument>, x: InputArgument, kwargs: map<string, Value>)
    requires forall i :: 0 <= i < |xs| ==> Resolve(render, xs[i], kwargs).Success?
    requires Resolve(render, x, kwargs).Success?
    ensures forall i :: 0 <= i < |xs + [x]| ==> Resolve(render, (xs + [x])[i], kwargs).Success?
    ensures Contributions(render, xs + [x], kwargs) ==
      Contributions(render, xs, kwargs) +
      (match Resolve(render, x, kwargs).value case None => [] case Some(t) => [t])
    decreases |xs|
  {
    if xs != [] {
      assert (xs + [x])[1..] == xs[1..] + [x];
      ContributionsAppend(render, xs[1..], x, kwargs);
    }
  }

  /**
   * `get_command` succeeds exactly when every input resolves, and then its
   * tokens are the inputs' contributions in list order: one token per
   * supplied or defaulted input, none per skipped optional input.
   */
  lemma {:induction false} TokensAreContributions(render: Renderer, xs: seq<InputArgument>, kwargs: map<string, Value>)
    ensures Tokens(render, xs, kwargs).Success? <==>
      forall i :: 0 <= i < |xs| ==> Resolve(render, xs[i], kwargs).Success?
    ensures Tokens(render, xs, kwargs).Success? ==>
      Tokens(render, xs, kwargs).value == Contributions(render, xs, kwargs)
    decreases |xs|
  {
    if xs != [] {
      var init, last := xs[..|xs| - 1], xs[|xs| - 1];
      assert xs == init + [last];
      TokensAreContributions(render, init, kwargs);
      if Tokens(render, init, kwargs).Success? && Resolve(render, last, kwargs).Success? {
        ContributionsAppend(render, init, last, kwargs);
      }
      if !Tokens(render, init, kwargs).Success? {
        var i :| 0 <= i < |init| && !Resolve(render, init[i], kwargs).Success?;
        assert xs[i] == init[i];
      }
      forall i | 0 <= i < |init| && Tokens(render, xs, kwargs).Success?
        ensures Resolve(render, init[i], kwargs).Success?
      {
      }
    }
  }

  /**
   * When an input raises, `get_command` raises that input's exception as
   * long as every earlier input resolved.
   */
  lemma {:induction false} FirstFailureWins(render: Renderer, xs: seq<InputArgument>, kwargs: map<string, Value>, i: int)
    requires 0 <= i < |xs|
    requires forall j :: 0 <= j < i ==> Resolve(render, xs[j], kwargs).Success?
    requires Resolve(render, xs[i], kwargs).Failure?
    ensures Tokens(render, xs, kwargs) == Failure(Resolve(render, xs[i], kwargs).error)
  {
    var pre := xs[..i];
    TokensAreContributions(render, pre, kwargs);
    assert xs[..i + 1][..i] == pre;
    FailurePersists(render, xs, kwargs, i + 1);
  }

  /**
   * With a renderer that only raises TypeError, "Input parameter(s)
   * missing: <id>" is raised exactly when some input with that id is
   * unresolvable and every input before it resolved.
   */
  lemma MissingInputReported(render: Renderer, xs: seq<InputArgument>, kwargs: map<string, Value>, id: string)
    requires RaisesOnlyTypeError(render)
    ensures Tokens(render, xs, kwargs) == Failure(MissingInput(id)) <==>
      exists i :: 0 <= i < |xs| && xs[i].id == id && Unresolvable(xs[i], kwargs) &&
        forall j :: 0 <= j < i ==> Resolve(render, xs[j], kwargs).Success?
  {
    TokensAreContributions(render, xs, kwargs);
    if Tokens(render, xs, kwargs) == Failure(MissingInput(id)) {
      var i :| 0 <= i < |xs| && !Resolve(render, xs[i], kwargs).Success?;
      while i > 0 && !(forall j :: 0 <= j < i ==> Resolve(render, xs[j], kwargs).Success?)
        invariant 0 <= i < |xs| && !Resolve(render, xs[i], kwargs).Success?
        decreases i
      {
        var j :| 0 <= j < i && !Resolve(render, xs[j], kwargs).Success?;
        i := j;
      }
      FirstFailureWins(render, xs, kwargs, i);
      assert xs[i].id == id && Unresolvable(xs[i], kwargs);
    }
    if exists i :: 0 <= i < |xs| && xs[i].id == id && Unresolvable(xs[i], kwargs) &&
        forall j :: 0 <= j < i ==> Resolve(render, xs[j], kwargs).Success? {
      var i :| 0 <= i < |xs| && xs[i].id == id && Unresolvable(xs[i], kwargs) &&
        forall j :: 0 <= j < i ==> Resolve(render, xs[j], kwargs).Success?;
      FirstFailureWins(render, xs, kwargs, i);
    }
  }

  /**
   * Keyword values whose names are not input ids change nothing: only the
   * ids of the inputs are looked up.
   */
  lemma {:induction false} ExtraKeywordsIgnored(render: Renderer, xs: seq<InputArgument>, kw1: map<string, Value>, kw2: map<string, Value>)
    requires forall i :: 0 <= i < |xs| ==>
      (xs[i].id in kw1 <==> xs[i].id in kw2) && (xs[i].id in kw1 ==> kw1[xs[i].id] == kw2[xs[i].id])
    ensures Tokens(render, xs, kw1) == Tokens(render, xs, kw2)
    decreases |xs|
  {
    if xs != [] {
      var init := xs[..|xs| - 1];
      assert forall i :: 0 <= i < |init| ==> init[i] == xs[i];
      ExtraKeywordsIgnored(render, init, kw1, kw2);
      assert Resolve(render, xs[|xs| - 1], kw1) == Resolve(render, xs[|xs| - 1], kw2);
    }
  }
}
