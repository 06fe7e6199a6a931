/**
 * The slice of Python's value semantics the binding engine relies on:
 * the values a parsed YAML document or a keyword-argument map can hold,
 * truthiness (`if x:`), f-string formatting (`str()` and `repr()`),
 * iteration (`for x in v`), `str.join`, `str.rstrip`, the substring test
 * `sub in s`, dictionary lookup, and the builtin `any` that the schema
 * library applies when `any` is used as a schema.
 */
module PyValue {

  datatype Option<+T> = None | Some(value: T)

  /** The exceptions the engine raises, explicitly or through Python builtins. */
  datatype Error =
    | MissingInput(id: string)        // Exception("Input parameter(s) missing: <id>")
    | MissingStdout                   // Exception("value for stdout not provided")
    | MissingStderr                   // Exception("value for stderr not provided")
    | MissingOutputFile(id: string)   // Exception("value for output file <id> not provided")
    | TooManyArguments                // Exception("Too many arguments provided to the command")
    | InvalidCwl                      // the validator rejected the document
    | TypeError                       // e.g. iterating an int, `None < 1`, unhashable key
    | KeyError(key: string)           // d[key] on a missing key
    | AttributeError                  // e.g. `.rstrip` on a list
  {
    /** The message text of the explicitly raised exceptions. */
    function Message(): string
    {
      match this
      case MissingInput(id) => "Input parameter(s) missing: " + id
      case MissingStdout => "value for stdout not provided"
      case MissingStderr => "value for stderr not provided"
      case MissingOutputFile(id) => "value for output file " + id + " not provided"
      case TooManyArguments => "Too many arguments provided to the command"
      case InvalidCwl => "Invalid Cwl File for Command Line Tools"
      case TypeError => "TypeError"
      case KeyError(k) => k
      case AttributeError => "AttributeError"
    }
  }

  datatype Result<+T> = Success(value: T) | Failure(error: Error)

  /**
   * A Python value as produced by a YAML loader or passed as a keyword
   * argument. A dictionary keeps its insertion order; its keys are strings.
   * A loaded dictionary never repeats a key; the sequence form could, and
   * then `Get` reads the first entry, so on loaded documents it reads the
   * only one.
   */
  datatype Value =
    | VNone
    | VBool(b: bool)
    | VInt(i: int)
    | VStr(s: string)
    | VList(items: seq<Value>)
    | VDict(entries: seq<(string, Value)>)

  /** Python's truth test `bool(v)`. */
  predicate Truthy(v: Value)
  {
    match v
    case VNone => false
    case VBool(b) => b
    case VInt(i) => i != 0
    case VStr(s) => s != ""
    case VList(items) => items != []
    case VDict(entries) => entries != []
  }

  /** Truthiness of an optional string field: `None` and `""` are falsy. */
  predicate OptTruthy(o: Option<string>)
  {
    o.Some? && o.value != ""
  }

  /** `f"{o}"` for an optional string: `None` prints as "None". */
  function FormatOpt(o: Option<string>): string
  {
    match o
    case None => "None"
    case Some(s) => s
  }

  // ---------------------------------------------------------------- str()

  function DigitChar(d: nat): char
    requires d < 10
  {
    "0123456789"[d]
  }

  function NatToString(n: nat): (r: string)
    ensures |r| >= 1
    ensures forall k :: 0 <= k < |r| ==> '0' <= r[k] <= '9'
  {
    if n < 10 then [DigitChar(n)] else NatToString(n / 10) + [DigitChar(n % 10)]
  }

  /** `str(i)` for an int: decimal digits, with a leading '-' when negative. */
  function IntToString(i: int): string
  {
    if i < 0 then "-" + NatToString(-i) else NatToString(i)
  }

  /**
   * `str(v)` (quoted == false) and `repr(v)` (quoted == true), which is
   * what an f-string and a container's printout use. The escaping of quotes
   * and backslashes inside `repr` of a string is not modelled.
   */
  function Format(v: Value, quoted: bool): string
  {
    match v
    case VNone => "None"
    case VBool(b) => if b then "True" else "False"
    case VInt(i) => IntToString(i)
    case VStr(s) => if quoted then "'" + s + "'" else s
    case VList(items) =>
      "[" + Join(", ", seq(|items|, k requires 0 <= k < |items| => Format(items[k], true))) + "]"
    case VDict(entries) =>
      "{" + Join(", ", seq(|entries|, k requires 0 <= k < |entries| =>
        "'" + entries[k].0 + "': " + Format(entries[k].1, true))) + "}"
  }

  /** `f"{v}"`. */
  function Str(v: Value): string
  {
    Format(v, false)
  }

  // ---------------------------------------------------------- iteration

  /** The characters of a string, each as a one-character string value. */
  function Chars(s: string): (r: seq<Value>)
    ensures |r| == |s|
    ensures forall k :: 0 <= k < |s| ==> r[k] == VStr([s[k]])
  {
    seq(|s|, k requires 0 <= k < |s| => VStr([s[k]]))
  }

  /**
   * What `for x in v` visits: the items of a list, the characters of a
   * string, the keys of a dictionary; anything else raises TypeError.
   */
  function Iterate(v: Value): (r: Result<seq<Value>>)
    ensures r.Failure? <==> !(v.VList? || v.VStr? || v.VDict?)
    ensures r.Failure? ==> r.error == TypeError
    ensures v.VList? ==> r == Success(v.items)
  {
    match v
    case VList(items) => Success(items)
    case VStr(s) => Success(Chars(s))
    case VDict(entries) => Success(seq(|entries|, k requires 0 <= k < |entries| => VStr(entries[k].0)))
    case _ => Failure(TypeError)
  }

  predicate AllStrings(xs: seq<Value>)
  {
    forall k :: 0 <= k < |xs| ==> xs[k].VStr?
  }

  function Strings(xs: seq<Value>): (r: seq<string>)
    requires AllStrings(xs)
    ensures |r| == |xs| && forall k :: 0 <= k < |xs| ==> r[k] == xs[k].s
  {
    seq(|xs|, k requires 0 <= k < |xs| => xs[k].s)
  }

  /** `sep.join(v)`: iterates `v`; every item must be a str, else TypeError. */
  function JoinValue(sep: string, v: Value): (r: Result<string>)
    ensures r.Success? <==> Iterate(v).Success? && AllStrings(Iterate(v).value)
    ensures r.Success? ==> r.value == Join(sep, Strings(Iterate(v).value))
  {
    match Iterate(v)
    case Failure(e) => Failure(e)
    case Success(xs) => if AllStrings(xs) then Success(Join(sep, Strings(xs))) else Failure(TypeError)
  }

  /**
   * Applying `f` to each item in order, as a generator consumed by
   * `list.extend` does: the first exception is raised and ends the pass.
   */
  function MapAll<A, B>(f: A --> Result<B>, xs: seq<A>): Result<seq<B>>
    requires forall i :: 0 <= i < |xs| ==> f.requires(xs[i])
  {
    if xs == [] then Success([])
    else
      match MapAll(f, xs[..|xs| - 1])
      case Failure(e) => Failure(e)
      case Success(ys) =>
        match f(xs[|xs| - 1])
        case Failure(e) => Failure(e)
        case Success(y) => Success(ys + [y])
  }

  lemma {:induction false} MapAllFailurePersists<A, B>(f: A --> Result<B>, xs: seq<A>, n: int)
    requires forall i :: 0 <= i < |xs| ==> f.requires(xs[i])
    requires 0 <= n <= |xs| && MapAll(f, xs[..n]).Failure?
    ensures MapAll(f, xs) == MapAll(f, xs[..n])
    decreases |xs| - n
  {
    if n < |xs| {
      assert xs[..n + 1][..n] == xs[..n];
      MapAllFailurePersists(f, xs, n + 1);
    } else {
      assert xs[..n] == xs;
    }
  }

  /** A prefix one item longer is the shorter prefix and that item. */
  lemma TakeOneMore<T>(s: seq<T>, i: int)
    requires 0 <= i < |s|
    ensures s[..i + 1] == s[..i] + [s[i]]
  {
  }

  /** One more item of the pass: its failure ends the pass, its value is appended. */
  lemma MapAllStep<A, B>(f: A --> Result<B>, xs: seq<A>, i: int, acc: seq<B>)
    requires forall i :: 0 <= i < |xs| ==> f.requires(xs[i])
    requires 0 <= i < |xs| && MapAll(f, xs[..i]) == Success(acc)
    ensures f(xs[i]).Failure? ==> MapAll(f, xs) == Failure(f(xs[i]).error)
    ensures f(xs[i]).Success? ==> MapAll(f, xs[..i + 1]) == Success(acc + [f(xs[i]).value])
  {
    assert xs[..i + 1][..i] == xs[..i];
    if f(xs[i]).Failure? {
      MapAllFailurePersists(f, xs, i + 1);
    }
  }

  /**
   * The pass succeeds exactly when `f` succeeds on every item, and then
   * holds `f`'s results in order; otherwise the first failure is raised.
   */
  lemma {:induction false} MapAllPointwise<A, B>(f: A --> Result<B>, xs: seq<A>)
    requires forall i :: 0 <= i < |xs| ==> f.requires(xs[i])
    ensures MapAll(f, xs).Success? <==> forall i :: 0 <= i < |xs| ==> f(xs[i]).Success?
    ensures MapAll(f, xs).Success? ==>
      |MapAll(f, xs).value| == |xs| && forall i :: 0 <= i < |xs| ==> MapAll(f, xs).value[i] == f(xs[i]).value
    ensures MapAll(f, xs).Failure? ==>
      exists i :: 0 <= i < |xs| && f(xs[i]).Failure? && MapAll(f, xs).error == f(xs[i]).error &&
        forall j :: 0 <= j < i ==> f(xs[j]).Success?
    decreases |xs|
  {
    if xs != [] {
      var n := |xs|;
      var init := xs[..n - 1];
      assert forall i :: 0 <= i < n - 1 ==> init[i] == xs[i];
      MapAllPointwise(f, init);
      if MapAll(f, init).Success? && f(xs[n - 1]).Success? {
        var ys := MapAll(f, init).value;
        assert MapAll(f, xs).value == ys + [f(xs[n - 1]).value];
      } else if MapAll(f, init).Success? {
        assert MapAll(f, xs).error == f(xs[n - 1]).error;
      } else {
        var i :| 0 <= i < n - 1 && f(init[i]).Failure? && MapAll(f, init).error == f(init[i]).error &&
          forall j :: 0 <= j < i ==> f(init[j]).Success?;
        assert xs[i] == init[i];
      }
    }
  }

  /** When `f` gives `ys[i]` on every `xs[i]`, the pass gives `ys`. */
  lemma MapAllSucceeds<A, B>(f: A --> Result<B>, xs: seq<A>, ys: seq<B>)
    requires forall i :: 0 <= i < |xs| ==> f.requires(xs[i])
    requires |xs| == |ys| && forall i :: 0 <= i < |xs| ==> f(xs[i]) == Success(ys[i])
    ensures MapAll(f, xs) == Success(ys)
  {
    MapAllPointwise(f, xs);
    assert forall i :: 0 <= i < |xs| ==> f(xs[i]).Success?;
    var r := MapAll(f, xs).value;
    assert |r| == |ys|;
    assert forall i :: 0 <= i < |xs| ==> r[i] == f(xs[i]).value == ys[i];
    assert r == ys;
  }

  /**
   * A pass over a concatenation: a failure in the first part wins, then a
   * failure in the second, and otherwise the two results follow each other.
   */
  lemma {:induction false} MapAllAppend<A, B>(f: A --> Result<B>, xs: seq<A>, ys: seq<A>)
    requires forall i :: 0 <= i < |xs| ==> f.requires(xs[i])
    requires forall i :: 0 <= i < |ys| ==> f.requires(ys[i])
    ensures MapAll(f, xs).Failure? ==> MapAll(f, xs + ys) == MapAll(f, xs)
    ensures MapAll(f, xs).Success? && MapAll(f, ys).Failure? ==> MapAll(f, xs + ys) == MapAll(f, ys)
    ensures MapAll(f, xs).Success? && MapAll(f, ys).Success? ==>
      MapAll(f, xs + ys) == Success(MapAll(f, xs).value + MapAll(f, ys).value)
    decreases |ys|
  {
    if ys == [] {
      assert xs + ys == xs;
      assert MapAll(f, ys) == Success([]);
      if MapAll(f, xs).Success? {
        assert MapAll(f, xs).value + [] == MapAll(f, xs).value;
      }
    } else {
      var n := |ys|;
      var init := ys[..n - 1];
      assert (xs + ys)[..|xs + ys| - 1] == xs + init;
      assert (xs + ys)[|xs + ys| - 1] == ys[n - 1];
      MapAllAppend(f, xs, init);
      if MapAll(f, xs).Success? && MapAll(f, init).Success? && f(ys[n - 1]).Success? {
        var u, v, y := MapAll(f, xs).value, MapAll(f, init).value, f(ys[n - 1]).value;
        assert MapAll(f, ys) == Success(v + [y]);
        assert MapAll(f, xs + init) == Success(u + v);
        assert MapAll(f, xs + ys) == Success(u + v + [y]);
        assert u + v + [y] == u + (v + [y]);
      }
    }
  }

  // -------------------------------------------------------------- strings

  /** `sep.join(xs)`. */
  function Join(sep: string, xs: seq<string>): string
  {
    if |xs| == 0 then ""
    else if |xs| == 1 then xs[0]
    else Join(sep, xs[..|xs| - 1]) + sep + xs[|xs| - 1]
  }

  lemma JoinAppend(sep: string, xs: seq<string>, x: string)
    requires xs != []
    ensures Join(sep, xs + [x]) == Join(sep, xs) + sep + x
  {
    assert (xs + [x])[..|xs|] == xs;
  }

  /** Joining a sequence whose every item is wrapped as q + x + q. */
  function Quoted(q: string, xs: seq<Value>): (r: seq<string>)
    ensures |r| == |xs|
    ensures forall k :: 0 <= k < |xs| ==> r[k] == q + Str(xs[k]) + q
  {
    seq(|xs|, k requires 0 <= k < |xs| => q + Str(xs[k]) + q)
  }

  /**
   * `s.rstrip(chars)`: removes every trailing character that belongs to
   * the SET `cs` (not a suffix string): "x]][" stripped of "[]" is "x".
   */
  function RStrip(s: string, cs: set<char>): (r: string)
    ensures r <= s
    ensures r == [] || r[|r| - 1] !in cs
    ensures forall k :: |r| <= k < |s| ==> s[k] in cs
  {
    if |s| > 0 && s[|s| - 1] in cs then RStrip(s[..|s| - 1], cs) else s
  }

  /** The three conditions above determine `RStrip` completely. */
  lemma {:induction false} RStripUnique(s: string, cs: set<char>, t: string)
    requires t <= s
    requires t == [] || t[|t| - 1] !in cs
    requires forall k :: |t| <= k < |s| ==> s[k] in cs
    ensures RStrip(s, cs) == t
  {
    if |s| > |t| {
      assert s[|s| - 1] in cs;
      RStripUnique(s[..|s| - 1], cs, t);
    } else {
      assert s == t;
    }
  }

  /** `sub in s` for strings: a substring test. */
  predicate Contains(s: string, sub: string)
    decreases |s|
  {
    sub <= s || (|s| > 0 && Contains(s[1..], sub))
  }

  /** A string contains each of its suffixes. */
  lemma {:induction false} ContainsSuffix(s: string, u: string)
    ensures Contains(s + u, u)
    decreases |s|
  {
    if |s| > 0 {
      assert (s + u)[1..] == s[1..] + u;
      ContainsSuffix(s[1..], u);
    } else {
      assert s + u == u;
    }
  }

  /** A string in which the first character of `sub` never occurs does not contain `sub`. */
  lemma {:induction false} NotContainsFirst(s: string, sub: string)
    requires |sub| > 0
    requires forall k :: 0 <= k < |s| ==> s[k] != sub[0]
    ensures !Contains(s, sub)
    decreases |s|
  {
    assert !(sub <= s) by {
      if |s| > 0 {
        assert s[0] != sub[0];
      }
    }
    if |s| > 0 {
      assert forall k :: 0 <= k < |s| - 1 ==> s[1..][k] == s[k + 1];
      NotContainsFirst(s[1..], sub);
    }
  }

  /**
   * Wrapping every item in `q` and joining with `sep` is joining with
   * `q + sep + q` and wrapping the whole in `q`, for a non-empty list.
   */
  lemma {:induction false} JoinQuoted(sep: string, q: string, xs: seq<Value>)
    requires xs != [] && AllStrings(xs)
    ensures Join(sep, Quoted(q, xs)) == q + Join(q + sep + q, Strings(xs)) + q
    decreases |xs|
  {
    var n := |xs|;
    if n > 1 {
      var init := xs[..n - 1];
      var last := xs[n - 1].s;
      var a := Join(q + sep + q, Strings(init));
      JoinQuotedLast(sep, q, xs);
      JoinStringsLast(q + sep + q, xs);
      JoinQuoted(sep, q, init);
      RegroupQuoted(q, a, sep, last);
    } else {
      assert Quoted(q, xs) == [q + xs[0].s + q];
      assert Strings(xs) == [xs[0].s];
    }
  }

  lemma RegroupQuoted(q: string, a: string, sep: string, last: string)
    ensures q + a + q + sep + (q + last + q) == q + (a + (q + sep + q) + last) + q
  {
  }

  lemma JoinQuotedLast(sep: string, q: string, xs: seq<Value>)
    requires |xs| > 1 && AllStrings(xs)
    ensures Join(sep, Quoted(q, xs)) == Join(sep, Quoted(q, xs[..|xs| - 1])) + sep + (q + xs[|xs| - 1].s + q)
  {
    assert Quoted(q, xs)[..|xs| - 1] == Quoted(q, xs[..|xs| - 1]);
  }

  lemma JoinStringsLast(sep: string, xs: seq<Value>)
    requires |xs| > 1 && AllStrings(xs)
    ensures Join(sep, Strings(xs)) == Join(sep, Strings(xs[..|xs| - 1])) + sep + xs[|xs| - 1].s
  {
    assert Strings(xs)[..|xs| - 1] == Strings(xs[..|xs| - 1]);
  }

  predicate EndsWith(s: string, suffix: string)
  {
    |suffix| <= |s| && s[|s| - |suffix|..] == suffix
  }

  // --------------------------------------------------------- dictionaries

  /** `key in d`. */
  predicate HasKey(entries: seq<(string, Value)>, key: string)
  {
    exists k | 0 <= k < |entries| :: entries[k].0 == key
  }

  /** `d.get(key)`: the value under the first entry with that key. */
  function Get(entries: seq<(string, Value)>, key: string): (r: Option<Value>)
    ensures r.Some? <==> HasKey(entries, key)
    ensures r.Some? ==> exists k | 0 <= k < |entries| :: entries[k] == (key, r.value)
  {
    if |entries| == 0 then None
    else if entries[0].0 == key then Some(entries[0].1)
    else Get(entries[1..], key)
  }

  /** The first entry with the key gives the value. */
  lemma {:induction false} GetFirst(entries: seq<(string, Value)>, k: int, key: string)
    requires 0 <= k < |entries| && entries[k].0 == key
    requires forall j :: 0 <= j < k ==> entries[j].0 != key
    ensures Get(entries, key) == Some(entries[k].1)
    decreases k
  {
    if k > 0 {
      assert entries[1..][k - 1] == entries[k];
      GetFirst(entries[1..], k - 1, key);
    }
  }

  /** `d.get(key, default)`. */
  function GetOr(entries: seq<(string, Value)>, key: string, default: Value): Value
  {
    match Get(entries, key)
    case Some(v) => v
    case None => default
  }

  /** `d.get(key, {})` on a value that may not be a dictionary. */
  function SubDict(entries: seq<(string, Value)>, key: string): seq<(string, Value)>
  {
    match Get(entries, key)
    case Some(VDict(sub)) => sub
    case _ => []
  }

  /**
   * The builtin `any(v)` is truthy: `v` is iterable and one of the items it
   * visits is truthy. A non-iterable raises TypeError, which the schema
   * library reports as a failed check.
   */
  predicate AnyHolds(v: Value)
  {
    match v
    case VStr(s) => s != ""
    case VList(items) => exists k | 0 <= k < |items| :: Truthy(items[k])
    case VDict(entries) => exists k | 0 <= k < |entries| :: entries[k].0 != ""
    case _ => false
  }
}
