/** Small building blocks shared by every module: optional values, Go-style
    errors (including the nesting produced by `errors.Join`), outcomes that can
    also be a runtime panic, and the few `strings` helpers the source uses. */
module Base {

  datatype Option<+T> = None | Some(value: T)

  /** A Go error value. `Wrap` is `fmt.Errorf("<context>%w", cause)`, `Join` is
      the value built by `errors.Join`. */
  datatype Error =
    | Msg(text: string)
    | Wrap(context: string, cause: Error)
    | Join(errs: seq<Error>)

  /** A decoded JSON/YAML value, the model of Go's `interface{}` payloads. */
  datatype Json =
    | JNull
    | JBool(b: bool)
    | JNumber(n: int)
    | JString(s: string)
    | JArray(items: seq<Json>)
    | JObject(fields: map<string, Json>)

  datatype Result<+T> = Success(value: T) | Failure(error: Error)

  /** The outcome of a Go call that may also dereference nil:
      `Panicked` stands for the runtime panic. */
  datatype Outcome<+T> = Done(value: T) | Failed(error: Error) | Panicked(reason: string)

  /** `errors.Join(acc, e)` where `acc` is the accumulated (possibly nil) error
      and `e` is non-nil: nil arguments are dropped and the rest wrapped. */
  function JoinErr(acc: Option<Error>, e: Error): (r: Error)
    ensures r.Join? && |r.errs| >= 1 && r.errs[|r.errs| - 1] == e
    ensures |r.errs| <= 2
  {
    match acc
    case None => Join([e])
    case Some(a) => Join([a, e])
  }

  /** The value of a Go `var errs error` after `errs = errors.Join(errs, e)` has
      been executed for every `e` of `es`, in order. */
  function JoinAll(es: seq<Error>): (r: Option<Error>)
    ensures r.None? <==> es == []
    decreases |es|
  {
    if es == [] then None else Some(JoinErr(JoinAll(es[..|es| - 1]), es[|es| - 1]))
  }

  /** Joining one more error wraps the accumulator built so far. */
  lemma JoinAllSnoc(es: seq<Error>, e: Error)
    ensures JoinAll(es + [e]) == Some(JoinErr(JoinAll(es), e))
  {
    assert (es + [e])[..|es|] == es;
  }

  /** Reads the joined errors back out of an accumulated `errors.Join` chain. */
  function Unjoin(acc: Option<Error>): seq<Error>
  {
    match acc
    case None => []
    case Some(e) => UnjoinError(e)
  }

  function UnjoinError(e: Error): seq<Error>
    decreases e
  {
    if e.Join? && |e.errs| == 1 then [e.errs[0]]
    else if e.Join? && |e.errs| == 2 then
      assert e.errs[0] in e.errs;
      UnjoinError(e.errs[0]) + [e.errs[1]]
    else [e]
  }

  /** Joining never loses or reorders an error: every error that went into the
      accumulator can be read back, in the order it was joined. */
  lemma {:induction false} JoinAllRoundTrip(es: seq<Error>)
    ensures Unjoin(JoinAll(es)) == es
    decreases |es|
  {
    if es != [] {
      var init := es[..|es| - 1];
      JoinAllRoundTrip(init);
      var acc := JoinAll(init);
      if acc.Some? {
        assert JoinAll(es).value.errs == [acc.value, es[|es| - 1]];
      }
      assert init + [es[|es| - 1]] == es;
    }
  }

  /** `err.Error()`: a wrapped error prints its context before its cause, and
      an `errors.Join` value prints its errors one per line. */
  function ErrorText(e: Error): string
    decreases e
  {
    match e
    case Msg(t) => t
    case Wrap(c, cause) => c + ErrorText(cause)
    case Join(es) => Lines(seq(|es|, i requires 0 <= i < |es| => ErrorText(es[i])))
  }

  /** The lines of `ls` separated by newlines. */
  function Lines(ls: seq<string>): string
    decreases |ls|
  {
    if |ls| == 0 then ""
    else if |ls| == 1 then ls[0]
    else Lines(ls[..|ls| - 1]) + "\n" + ls[|ls| - 1]
  }

  function OptSeq<T>(o: Option<T>): (s: seq<T>)
    ensures o.None? ==> s == []
    ensures o.Some? ==> s == [o.value]
  {
    if o.Some? then [o.value] else []
  }

  predicate HasPrefix(s: string, prefix: string) {
    |prefix| <= |s| && s[..|prefix|] == prefix
  }

  predicate HasSuffix(s: string, suffix: string) {
    |suffix| <= |s| && s[|s| - |suffix|..] == suffix
  }

  /** A bracketed form splits at its first `[` when the heads hold none. */
  lemma BracketSplit(a: string, b: string, c: string, d: string)
    requires '[' !in a && '[' !in c && a + "[" + b == c + "[" + d
    ensures a == c && b == d
  {
    var k := if |a| < |c| then |a| else |c|;
    assert (a + "[" + b)[k] == (c + "[" + d)[k];
    assert |a| == |c|;
    assert a == (a + "[" + b)[..|a|] && c == (c + "[" + d)[..|c|];
    assert b == (a + "[" + b)[|a| + 1..] && d == (c + "[" + d)[|c| + 1..];
  }

  /** A `[` of `a + "[" + b`, when `b` holds none, lies no further than the
      one after `a`. */
  lemma BracketNotInTail(a: string, b: string, i: int)
    requires '[' !in b && 0 <= i < |a| + 1 + |b| && (a + "[" + b)[i] == '['
    ensures i <= |a|
  {
    forall j | |a| < j < |a| + 1 + |b|
      ensures (a + "[" + b)[j] != '['
    {
      assert (a + "[" + b)[j] == b[j - |a| - 1];
    }
  }

  /** A bracketed form splits at its last `[` when the tails hold none. */
  lemma LastBracketSplit(a: string, b: string, c: string, d: string)
    requires '[' !in b && '[' !in d && a + "[" + b == c + "[" + d
    ensures a == c && b == d
  {
    var s, t := a + "[" + b, c + "[" + d;
    BracketNotInTail(a, b, |c|);
    BracketNotInTail(c, d, |a|);
    assert a == s[..|a|] && c == t[..|c|];
    assert b == s[|a| + 1..] && d == t[|c| + 1..];
  }

  /** `strings.Contains`. */
  predicate Contains(s: string, sub: string)
    decreases |s|
  {
    HasPrefix(s, sub) || (|s| > 0 && Contains(s[1..], sub))
  }

  predicate OccursAt(s: string, sub: string, i: int) {
    0 <= i <= |s| - |sub| && s[i..i + |sub|] == sub
  }

  /** `strings.Contains(s, sub)` holds exactly when `sub` occurs at some offset. */
  lemma {:induction false} ContainsAt(s: string, sub: string)
    ensures Contains(s, sub) <==> exists i :: OccursAt(s, sub, i)
    decreases |s|
  {
    if |s| > 0 {
      ContainsAt(s[1..], sub);
      if exists i :: OccursAt(s, sub, i) {
        var i :| OccursAt(s, sub, i);
        if i > 0 {
          assert OccursAt(s[1..], sub, i - 1);
        }
      }
      if Contains(s[1..], sub) {
        var i :| OccursAt(s[1..], sub, i);
        assert OccursAt(s, sub, i + 1);
      }
      if HasPrefix(s, sub) {
        assert OccursAt(s, sub, 0);
      }
    } else if |sub| == 0 {
      assert OccursAt(s, sub, 0);
    }
  }

  /** `strings.TrimLeft(s, "/")`: drops every leading slash. */
  function TrimLeadingSlashes(s: string): (r: string)
    ensures |r| <= |s| && r == s[|s| - |r|..]
    ensures r == [] || r[0] != '/'
    ensures forall i :: 0 <= i < |s| - |r| ==> s[i] == '/'
    decreases |s|
  {
    if |s| > 0 && s[0] == '/' then TrimLeadingSlashes(s[1..]) else s
  }
}
