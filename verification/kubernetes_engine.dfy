/** kubernetes.go: the Kubernetes engine. Plain manifests are rendered by
    kustomize (not part of this model), then `doResmapDiff` compares the two
    revisions; resources are wrapped as Kubernetes resources whose origin
    always carries the reference "unknown" when it names no repository. */
module KubernetesEngine {
  import opened Base
  import opened KubeObjects
  import opened Entrypoints
  import opened KubeOrigin
  import opened ResmapDiff
  import opened KubeExtraction

  /** The wrapper of kubernetes.go. */
  function KubeWrapping(repoUrl: string, ep: Entrypoint): (w: Wrapping)
    ensures !w.kustomize
    ensures forall o :: w.origin(o) == OriginUnknownRef(repoUrl, ep, o)
  {
    Wrapping(false, o => OriginUnknownRef(repoUrl, ep, o))
  }

  /** `kubeDiffer.Diff`: both renders through `extractConcurrent`, then
      `doResmapDiff`, returning the records, every old and every new resource
      wrapped, and the joined structural-diff errors. */
  method Diff(repoUrl: string, ep: Entrypoint, pre: Render, post: Render, sd: StructuralDiff, c: Cleaner)
    returns (r: KubeOutcome)
    requires ValidRender(pre) && ValidRender(post) && IdPreserving(c)
    ensures r == EngineOutcome(pre, post, sd, c, KubeWrapping(repoUrl, ep))
  {
    r := RenderAndDiff(pre, post, sd, c, KubeWrapping(repoUrl, ep));
  }
}
