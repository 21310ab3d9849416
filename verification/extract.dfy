/** util.go: `extractConcurrent` renders both revisions of an entrypoint and
    decides which failures to report. The two extractions run as goroutines;
    this model runs them one after the other, pre first. */
module Extract {
  import opened Base

  /** What `extractConcurrent` returns; `None` is a nil resource set. */
  datatype Extracted<T> = Extracted(pre: Option<T>, post: Option<T>, err: Option<Error>)

  /** The value a render leaves behind: nothing when it failed. */
  function Value<T>(r: Result<Option<T>>): Option<T> {
    if r.Success? then r.value else None
  }

  /** The failures of the two renders, wrapped with the side they came from. */
  function Failures<T>(pre: Result<Option<T>>, post: Result<Option<T>>): (es: seq<Error>)
    ensures |es| == (if pre.Failure? then 1 else 0) + (if post.Failure? then 1 else 0)
  {
    (if pre.Failure? then [Wrap("unable to build pre-entrypoint - ", pre.error)] else [])
    + (if post.Failure? then [Wrap("unable to build post-entrypoint - ", post.error)] else [])
  }

  /** The join rule: an error is reported only when some render failed and
      neither produced anything, and then both sides are nil; otherwise both
      sides are returned as they are and every failure is dropped. */
  function ExtractRule<T>(pre: Result<Option<T>>, post: Result<Option<T>>): (r: Extracted<T>)
    ensures r.err.Some? <==> (pre.Failure? || post.Failure?) && Value(pre).None? && Value(post).None?
    ensures r.err.Some? ==> r.pre.None? && r.post.None? && Unjoin(r.err) == Failures(pre, post)
    ensures r.err.None? ==> r.pre == Value(pre) && r.post == Value(post)
  {
    var errs := JoinAll(Failures(pre, post));
    JoinAllRoundTrip(Failures(pre, post));
    if errs.Some? && Value(pre).None? && Value(post).None? then Extracted(None, None, errs)
    else Extracted(Value(pre), Value(post), None)
  }

  /** A failure on one side only is never reported: the other side's result
      comes back with no error and the failed side is nil. */
  lemma OneSidedFailureDropped<T>(pre: Result<Option<T>>, post: Result<Option<T>>)
    requires pre.Failure? && post.Success? && post.value.Some?
    ensures ExtractRule(pre, post) == Extracted(None, post.value, None)
  {
  }

  /** The error `extractConcurrent` accumulates, one case per pair of
      outcomes: a failure joins onto whatever the other side left. */
  lemma FailuresJoined<T>(pre: Result<Option<T>>, post: Result<Option<T>>)
    ensures var pw := if pre.Failure? then Some(JoinErr(None, Wrap("unable to build pre-entrypoint - ", pre.error))) else None;
      JoinAll(Failures(pre, post)) ==
        if post.Failure? then Some(JoinErr(pw, Wrap("unable to build post-entrypoint - ", post.error))) else pw
  {
    var pf := if pre.Failure? then [Wrap("unable to build pre-entrypoint - ", pre.error)] else [];
    if pre.Failure? {
      JoinAllSnoc([], pf[0]);
      assert [] + [pf[0]] == pf;
    }
    if post.Failure? {
      JoinAllSnoc(pf, Wrap("unable to build post-entrypoint - ", post.error));
    } else {
      assert Failures(pre, post) == pf;
    }
  }

  /** `extractConcurrent`, with the two tasks run in order over the shared
      locals. */
  method ExtractConcurrent<T>(pre: Result<Option<T>>, post: Result<Option<T>>) returns (r: Extracted<T>)
    ensures r == ExtractRule(pre, post)
  {
    var preResources: Option<T> := None;
    var postResources: Option<T> := None;
    var buildErrs: Option<Error> := None;

    if pre.Failure? {
      buildErrs := Some(JoinErr(buildErrs, Wrap("unable to build pre-entrypoint - ", pre.error)));
    } else {
      preResources := pre.value;
    }
    if post.Failure? {
      buildErrs := Some(JoinErr(buildErrs, Wrap("unable to build post-entrypoint - ", post.error)));
    } else {
      postResources := post.value;
    }
    FailuresJoined(pre, post);

    if buildErrs.Some? && preResources.None? && postResources.None? {
      return Extracted(None, None, buildErrs);
    }
    return Extracted(preResources, postResources, None);
  }
}
