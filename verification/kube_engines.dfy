/** The step every Kubernetes engine (kubernetes.go, kustomize.go,
    kustomize_differ.go) takes before diffing: both revisions are rendered by
    `extractConcurrent`, an extraction error ends the diff, and otherwise the
    two resource maps, either of which may be nil, are diffed. */
module KubeExtraction {
  import opened Base
  import opened KubeObjects
  import opened ResourceDiffs
  import opened Extract
  import opened ResmapDiff

  /** A render: a (possibly nil) resource map or a failure. */
  type Render = Result<Option<seq<KubeObject>>>

  /** A successful render is a resource map, so its ids are unique. */
  predicate ValidRender(r: Render) {
    r.Success? ==> ValidMap(r.value)
  }

  /** The outcome of an engine once `extractConcurrent` has returned. */
  function DiffExtracted(x: Extracted<seq<KubeObject>>, sd: StructuralDiff, c: Cleaner, w: Wrapping): KubeOutcome {
    if x.err.Some? then KubeOutcome(None, None, None, x.err)
    else DiffMaps(x.pre, x.post, sd, c, w)
  }

  /** The outcome of an engine on the two renders. */
  function EngineOutcome(pre: Render, post: Render, sd: StructuralDiff, c: Cleaner, w: Wrapping): KubeOutcome {
    DiffExtracted(ExtractRule(pre, post), sd, c, w)
  }

  /** `extractConcurrent` followed by the resource-map diff. */
  method RenderAndDiff(pre: Render, post: Render, sd: StructuralDiff, c: Cleaner, w: Wrapping) returns (r: KubeOutcome)
    requires ValidRender(pre) && ValidRender(post) && IdPreserving(c)
    ensures r == EngineOutcome(pre, post, sd, c, w)
  {
    var x := ExtractConcurrent(pre, post);
    if x.err.Some? {
      return KubeOutcome(None, None, None, x.err);
    }
    r := DoResmapDiff(x.pre, x.post, sd, c, w);
  }

  /** When both renders fail, nothing is diffed and the error holds both
      failures, pre first, each wrapped with its side. */
  lemma BothRendersFail(pre: Render, post: Render, sd: StructuralDiff, c: Cleaner, w: Wrapping)
    requires pre.Failure? && post.Failure?
    ensures var r := EngineOutcome(pre, post, sd, c, w);
      && r.diff.None? && r.allOld.None? && r.allNew.None?
      && Unjoin(r.err) == [Wrap("unable to build pre-entrypoint - ", pre.error),
                           Wrap("unable to build post-entrypoint - ", post.error)]
  {
  }

  /** A failed pre render is dropped without a word: the post resources are
      all reported as created, with no error. */
  lemma PreFailureCreatesAll(pre: Render, post: Render, sd: StructuralDiff, c: Cleaner, w: Wrapping)
    requires pre.Failure? && post.Success? && post.value.Some?
    requires ValidMap(post.value) && IdPreserving(c) && CleanResmap(post.value.value, c).Success?
    ensures var r := EngineOutcome(pre, post, sd, c, w);
      var n := post.value.value;
      var cn := CleanResmap(n, c).value;
      && r.err.None? && r.diff.Some? && |r.diff.value| == |n|
      && (forall i :: 0 <= i < |n| ==> r.diff.value[i] == ResourceDiff(Create, None, Some(Expose(w, n[i], cn[i])), []))
  {
    assert ExtractRule(pre, post) == Extracted(None, post.value, None);
    NilOldMapCreatesAll(post.value, sd, c, w);
  }

  /** A failed post render is dropped without a word: the pre resources are
      all reported as removed, with no error. */
  lemma PostFailureRemovesAll(pre: Render, post: Render, sd: StructuralDiff, c: Cleaner, w: Wrapping)
    requires post.Failure? && pre.Success? && pre.value.Some?
    requires ValidMap(pre.value) && IdPreserving(c) && CleanResmap(pre.value.value, c).Success?
    ensures var r := EngineOutcome(pre, post, sd, c, w);
      var o := pre.value.value;
      var co := CleanResmap(o, c).value;
      && r.err.None? && r.diff.Some? && |r.diff.value| == |o|
      && (forall k :: 0 <= k < |o| ==> r.diff.value[k] == ResourceDiff(Update, Some(Expose(w, o[k], co[k])), None, []))
  {
    assert ExtractRule(pre, post) == Extracted(pre.value, None, None);
    NilNewMapRemovesAll(pre.value, sd, c, w);
  }

  /** Next to a successful render, a nil map is diffed as the empty map. */
  lemma NilRenderIsEmpty(post: Render, sd: StructuralDiff, c: Cleaner, w: Wrapping)
    requires post.Success?
    ensures EngineOutcome(Success(None), post, sd, c, w) == EngineOutcome(Success(Some([])), post, sd, c, w)
    ensures EngineOutcome(post, Success(None), sd, c, w) == EngineOutcome(post, Success(Some([])), sd, c, w)
  {
  }

  /** Next to a failed render, a nil map and an empty one differ: with a nil
      map the failure is reported, with an empty one it is dropped. */
  lemma NilRenderBesideFailure(post: Render, sd: StructuralDiff, c: Cleaner, w: Wrapping)
    requires post.Failure?
    ensures EngineOutcome(Success(None), post, sd, c, w).diff.None?
    ensures EngineOutcome(Success(None), post, sd, c, w).err.Some?
    ensures EngineOutcome(Success(Some([])), post, sd, c, w).err.None?
  {
    assert CleanResmap([], c) == Success([]);
    var inp := InputsOf(Some([]), None, sd, c, w);
    assert inp.oldMap == [] && inp.newMap == [];
    assert AllErrors(inp) == [];
  }
}
