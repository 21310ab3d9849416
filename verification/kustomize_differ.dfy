/** kustomize_differ.go: the two-result version of the kustomize engine. It
    runs the same resource-map diff as kubernetes.go but returns only the
    records and the joined error; resources are wrapped as kustomize
    resources whose origin takes the entrypoint's hash or branch. */
module KustomizeDifferEngine {
  import opened Base
  import opened KubeObjects
  import opened Entrypoints
  import opened KubeOrigin
  import opened ResourceDiffs
  import opened ResmapDiff
  import opened KubeExtraction

  /** The wrapper of kustomize_differ.go and kustomize.go. */
  function KustomizeWrapping(repoUrl: string, ep: RefEntrypoint): (w: Wrapping)
    ensures w.kustomize
    ensures forall o :: w.origin(o) == OriginByRef(repoUrl, ep, o)
  {
    Wrapping(true, o => OriginByRef(repoUrl, ep, o))
  }

  /** `kubeDiffer.Diff` of kustomize_differ.go. The renders are interface
      values converted back to resource maps; a conversion that fails is
      reported as "invalid resmap received", which a render never causes. */
  method Diff(repoUrl: string, ep: RefEntrypoint, pre: Render, post: Render, sd: StructuralDiff, c: Cleaner)
    returns (diff: Option<seq<ResourceDiff>>, err: Option<Error>)
    requires ValidRender(pre) && ValidRender(post) && IdPreserving(c)
    ensures var r := EngineOutcome(pre, post, sd, c, KustomizeWrapping(repoUrl, ep));
      diff == r.diff && err == r.err
  {
    var r := RenderAndDiff(pre, post, sd, c, KustomizeWrapping(repoUrl, ep));
    return r.diff, r.err;
  }
}
