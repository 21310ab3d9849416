/** kubernetes.go, lines 80-101: the `KubernetesResource` wrapper. */
module KubernetesResources {
  import opened KubeObjects
  import Entrypoints

  function Type(kr: KubeResource): (t: string)
    ensures t == Entrypoints.Kubernetes
  {
    Entrypoints.Kubernetes
  }

  /** The name, qualified by the namespace when there is one. */
  function Name(kr: KubeResource): (n: string)
    ensures kr.resource.namespace == "" ==> n == kr.resource.name
    ensures kr.resource.namespace != "" ==> n == kr.resource.namespace + "/" + kr.resource.name
  {
    QualifiedName(kr.resource)
  }

  /** The formatted kind followed by the bracketed name. */
  function Identifier(kr: KubeResource): (id: string)
    ensures id == kr.resource.gvk + "[" + Name(kr) + "]"
  {
    KubeIdentifier(kr.resource)
  }
}

/** kustomize_resource.go: the `KustomizeResource` wrapper (kustomize.go,
    lines 25-45, declares the same type with the same methods). */
module KustomizeResources {
  import opened KubeObjects
  import Entrypoints

  function Type(kr: KubeResource): (t: string)
    ensures t == Entrypoints.Kustomize
  {
    Entrypoints.Kustomize
  }

  /** The name, qualified by the namespace when there is one. */
  function Name(kr: KubeResource): (n: string)
    ensures kr.resource.namespace == "" ==> n == kr.resource.name
    ensures kr.resource.namespace != "" ==> n == kr.resource.namespace + "/" + kr.resource.name
  {
    QualifiedName(kr.resource)
  }

  /** The formatted kind followed by the bracketed name. */
  function Identifier(kr: KubeResource): (id: string)
    ensures id == kr.resource.gvk + "[" + Name(kr) + "]"
  {
    KubeIdentifier(kr.resource)
  }
}
