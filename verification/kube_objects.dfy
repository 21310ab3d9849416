/** Kustomize's rendered resources as the Kubernetes engines see them: objects
    identified by their current id, resource maps with unique ids, lookup by
    id, the annotation-stripping clean copy, and the `Name`/`Identifier`
    formatting shared by the Kubernetes and kustomize resource wrappers. */
module KubeObjects {
  import opened Base

  /** kustomize's `resource.Origin`: where an object was declared. */
  datatype Origin = Origin(path: string, repo: string, ref: string)

  /** A resource's current id: formatted group/version/kind, namespace, name. */
  datatype ResId = ResId(gvk: string, namespace: string, name: string)

  /** A rendered Kubernetes object. `gvk` is the value of `GetGvk().String()`,
      `body` the object as YAML decodes it, `annotations` its metadata
      annotations and `origin` what `GetOrigin` yields (`None` both when there
      is no origin annotation and when it does not decode). */
  datatype KubeObject = KubeObject(
    gvk: string,
    namespace: string,
    name: string,
    annotations: map<string, string>,
    body: Json,
    origin: Option<Origin>)

  /** `KubernetesResource` and `KustomizeResource`: an object and its rewritten
      origin. */
  datatype KubeResource = KubeResource(resource: KubeObject, origin: Origin)

  function CurId(o: KubeObject): ResId {
    ResId(o.gvk, o.namespace, o.name)
  }

  /** A `resmap.ResMap`: `Resources()` in order, no two with the same id. */
  predicate UniqueIds(rm: seq<KubeObject>) {
    forall i, j :: 0 <= i < j < |rm| ==> CurId(rm[i]) != CurId(rm[j])
  }

  predicate HasId(rm: seq<KubeObject>, id: ResId) {
    exists i :: 0 <= i < |rm| && CurId(rm[i]) == id
  }

  /** The positions below `n` holding `id`, in order. */
  function IndicesBelow(rm: seq<KubeObject>, id: ResId, n: int): (r: seq<int>)
    requires 0 <= n <= |rm|
    ensures forall k :: 0 <= k < |r| ==> 0 <= r[k] < n && CurId(rm[r[k]]) == id
    decreases n
  {
    if n == 0 then []
    else
      var init := IndicesBelow(rm, id, n - 1);
      if CurId(rm[n - 1]) == id then init + [n - 1] else init
  }

  /** The positions holding `id`, in order. */
  function IndicesOf(rm: seq<KubeObject>, id: ResId): (r: seq<int>)
    ensures forall k :: 0 <= k < |r| ==> 0 <= r[k] < |rm| && CurId(rm[r[k]]) == id
  {
    IndicesBelow(rm, id, |rm|)
  }

  lemma {:induction false} IndicesBelowComplete(rm: seq<KubeObject>, id: ResId, n: int, i: int)
    requires 0 <= i < n <= |rm| && CurId(rm[i]) == id
    ensures i in IndicesBelow(rm, id, n)
    decreases n
  {
    if i < n - 1 {
      IndicesBelowComplete(rm, id, n - 1, i);
    }
  }

  /** Every position holding `id` is listed. */
  lemma IndicesComplete(rm: seq<KubeObject>, id: ResId, i: int)
    requires 0 <= i < |rm| && CurId(rm[i]) == id
    ensures i in IndicesOf(rm, id)
  {
    IndicesBelowComplete(rm, id, |rm|, i);
  }

  lemma {:induction false} IndicesBelowIncreasing(rm: seq<KubeObject>, id: ResId, n: int, k: int, l: int)
    requires 0 <= n <= |rm| && 0 <= k < l < |IndicesBelow(rm, id, n)|
    ensures IndicesBelow(rm, id, n)[k] < IndicesBelow(rm, id, n)[l]
    decreases n
  {
    if l < |IndicesBelow(rm, id, n - 1)| {
      IndicesBelowIncreasing(rm, id, n - 1, k, l);
    }
  }

  /** The positions are listed in increasing order. */
  lemma IndicesIncreasing(rm: seq<KubeObject>, id: ResId, k: int, l: int)
    requires 0 <= k < l < |IndicesOf(rm, id)|
    ensures IndicesOf(rm, id)[k] < IndicesOf(rm, id)[l]
  {
    IndicesBelowIncreasing(rm, id, |rm|, k, l);
  }

  /** `GetByCurrentId`: succeeds only when exactly one resource has the id. */
  function GetByCurrentId(rm: seq<KubeObject>, id: ResId): Result<KubeObject> {
    var found := IndicesOf(rm, id);
    if |found| == 1 then Success(rm[found[0]])
    else if |found| == 0 then Failure(Msg("no matches for Id"))
    else Failure(Msg("multiple matches for Id"))
  }

  lemma {:induction false} IndicesBelowNone(rm: seq<KubeObject>, id: ResId, n: int)
    requires 0 <= n <= |rm|
    requires forall j :: 0 <= j < n ==> CurId(rm[j]) != id
    ensures IndicesBelow(rm, id, n) == []
    decreases n
  {
    if n > 0 {
      IndicesBelowNone(rm, id, n - 1);
    }
  }

  lemma IndicesNone(rm: seq<KubeObject>, id: ResId)
    requires !HasId(rm, id)
    ensures IndicesOf(rm, id) == []
  {
    IndicesBelowNone(rm, id, |rm|);
  }

  lemma {:induction false} IndicesBelowSingle(rm: seq<KubeObject>, n: int, i: int)
    requires UniqueIds(rm) && 0 <= i < n <= |rm|
    ensures IndicesBelow(rm, CurId(rm[i]), n) == [i]
    decreases n
  {
    if i == n - 1 {
      IndicesBelowNone(rm, CurId(rm[i]), n - 1);
    } else {
      assert CurId(rm[i]) != CurId(rm[n - 1]);
      IndicesBelowSingle(rm, n - 1, i);
    }
  }

  lemma IndicesSingle(rm: seq<KubeObject>, i: int)
    requires UniqueIds(rm) && 0 <= i < |rm|
    ensures IndicesOf(rm, CurId(rm[i])) == [i]
  {
    IndicesBelowSingle(rm, |rm|, i);
  }

  /** In a map with unique ids, lookup fails exactly when the id is absent. */
  lemma LookupAbsent(rm: seq<KubeObject>, id: ResId)
    requires UniqueIds(rm)
    ensures GetByCurrentId(rm, id).Failure? <==> !HasId(rm, id)
  {
    if HasId(rm, id) {
      var i :| 0 <= i < |rm| && CurId(rm[i]) == id;
      IndicesSingle(rm, i);
    } else {
      IndicesNone(rm, id);
    }
  }

  /** In a map with unique ids, looking up the id of its `i`-th resource
      yields that resource. */
  lemma LookupPresent(rm: seq<KubeObject>, i: int)
    requires UniqueIds(rm) && 0 <= i < |rm|
    ensures GetByCurrentId(rm, CurId(rm[i])) == Success(rm[i])
  {
    IndicesSingle(rm, i);
  }

  // ---------------------------------------------------------------------------
  // The clean copy

  /** The three annotation passes of `kubeCleanResmap`, each applied to every
      resource of a deep copy: build annotations (cannot fail), transformer
      annotations and origin annotations. */
  datatype Cleaner = Cleaner(
    build: KubeObject -> KubeObject,
    transformer: KubeObject -> Result<KubeObject>,
    originAnnotations: KubeObject -> Result<KubeObject>)

  /** Stripping annotations never changes a resource's id. */
  ghost predicate IdPreserving(c: Cleaner) {
    && (forall o :: CurId(c.build(o)) == CurId(o))
    && (forall o :: c.transformer(o).Success? ==> CurId(c.transformer(o).value) == CurId(o))
    && (forall o :: c.originAnnotations(o).Success? ==> CurId(c.originAnnotations(o).value) == CurId(o))
  }

  function MapAll(rm: seq<KubeObject>, f: KubeObject -> KubeObject): (r: seq<KubeObject>)
    ensures |r| == |rm| && forall i :: 0 <= i < |rm| ==> r[i] == f(rm[i])
  {
    seq(|rm|, i requires 0 <= i < |rm| => f(rm[i]))
  }

  /** A pass that may fail: the first failing resource's error, else every
      resource transformed. */
  function TryMapAll(rm: seq<KubeObject>, f: KubeObject -> Result<KubeObject>): (r: Result<seq<KubeObject>>)
    ensures r.Success? <==> forall i :: 0 <= i < |rm| ==> f(rm[i]).Success?
    ensures r.Success? ==> |r.value| == |rm| && forall i :: 0 <= i < |rm| ==> r.value[i] == f(rm[i]).value
    decreases |rm|
  {
    if rm == [] then Success([])
    else
      match f(rm[0])
      case Failure(e) => Failure(e)
      case Success(o) =>
        match TryMapAll(rm[1..], f)
        case Failure(e) => Failure(e)
        case Success(rest) =>
          assert forall i :: 1 <= i < |rm| ==> rm[i] == rm[1..][i - 1];
          Success([o] + rest)
  }

  /** `kubeCleanResmap`: a copy with the build, transformer and origin
      annotations removed; a failing pass is reported with its context. */
  function CleanResmap(rm: seq<KubeObject>, c: Cleaner): (r: Result<seq<KubeObject>>)
    ensures r.Success? ==> |r.value| == |rm|
  {
    var built := MapAll(rm, c.build);
    match TryMapAll(built, c.transformer)
    case Failure(e) => Failure(Wrap("unable to remove origin annotations - ", e))
    case Success(stripped) =>
      match TryMapAll(stripped, c.originAnnotations)
      case Failure(e) => Failure(Wrap("unable to remove origin annotations - ", e))
      case Success(cleaned) => Success(cleaned)
  }

  /** `cleaned` is a copy of `raw` in which each resource kept its id. */
  predicate CleanCopy(raw: seq<KubeObject>, cleaned: seq<KubeObject>) {
    |cleaned| == |raw| && forall i :: 0 <= i < |raw| ==> CurId(cleaned[i]) == CurId(raw[i])
  }

  /** The clean copy holds, position by position, a resource with the same id. */
  lemma CleanKeepsIds(rm: seq<KubeObject>, c: Cleaner)
    requires IdPreserving(c) && CleanResmap(rm, c).Success?
    ensures CleanCopy(rm, CleanResmap(rm, c).value)
  {
    var built := MapAll(rm, c.build);
    var stripped := TryMapAll(built, c.transformer).value;
    var cleaned := TryMapAll(stripped, c.originAnnotations).value;
    forall i | 0 <= i < |rm|
      ensures CurId(cleaned[i]) == CurId(rm[i])
    {
      assert CurId(built[i]) == CurId(rm[i]);
      assert CurId(stripped[i]) == CurId(built[i]);
    }
  }

  /** Every lookup the engines make in a clean copy, for an id of the map it
      was made from, yields the clean form of that very resource: the
      "unable to get cleaned copy" errors cannot occur. */
  lemma CleanedLookup(raw: seq<KubeObject>, cleaned: seq<KubeObject>, i: int)
    requires UniqueIds(raw) && CleanCopy(raw, cleaned) && 0 <= i < |raw|
    ensures GetByCurrentId(cleaned, CurId(raw[i])) == Success(cleaned[i])
  {
    assert UniqueIds(cleaned) by {
      forall a, b | 0 <= a < b < |cleaned|
        ensures CurId(cleaned[a]) != CurId(cleaned[b])
      {
        assert CurId(cleaned[a]) == CurId(raw[a]);
      }
    }
    LookupPresent(cleaned, i);
  }

  // ---------------------------------------------------------------------------
  // Names and identifiers

  /** `Name()` of the Kubernetes and kustomize wrappers: the name, prefixed by
      `namespace/` when the namespace is set. */
  function QualifiedName(o: KubeObject): string {
    if o.namespace == "" then o.name else o.namespace + "/" + o.name
  }

  /** `Identifier()` of the Kubernetes and kustomize wrappers. */
  function KubeIdentifier(o: KubeObject): string {
    o.gvk + "[" + QualifiedName(o) + "]"
  }

  /** Object names and namespaces never contain a slash. */
  predicate SlashFree(o: KubeObject) {
    '/' !in o.name && '/' !in o.namespace
  }

  lemma SlashSplit(a: string, b: string, c: string, d: string)
    requires '/' !in a && '/' !in c && a + "/" + b == c + "/" + d
    ensures a == c && b == d
  {
    var k := if |a| < |c| then |a| else |c|;
    assert (a + "/" + b)[k] == (c + "/" + d)[k];
    assert |a| == |c|;
    assert a == (a + "/" + b)[..|a|] && c == (c + "/" + d)[..|c|];
    assert b == (a + "/" + b)[|a| + 1..] && d == (c + "/" + d)[|c| + 1..];
  }

  /** The qualified name tells namespace and name apart: two slash-free objects
      share a qualified name exactly when they share namespace and name. */
  lemma QualifiedNameInjective(o1: KubeObject, o2: KubeObject)
    requires SlashFree(o1) && SlashFree(o2)
    ensures QualifiedName(o1) == QualifiedName(o2) <==> (o1.namespace == o2.namespace && o1.name == o2.name)
  {
    if QualifiedName(o1) == QualifiedName(o2) {
      if o1.namespace != "" && o2.namespace != "" {
        SlashSplit(o1.namespace, o1.name, o2.namespace, o2.name);
      }
    }
  }

  /** The identifier names the resource: for slash-free names and formatted
      kinds without `[`, equal identifiers mean equal ids, and the converse. */
  lemma IdentifierDeterminesId(o1: KubeObject, o2: KubeObject)
    requires SlashFree(o1) && SlashFree(o2) && '[' !in o1.gvk && '[' !in o2.gvk
    ensures KubeIdentifier(o1) == KubeIdentifier(o2) <==> CurId(o1) == CurId(o2)
  {
    if KubeIdentifier(o1) == KubeIdentifier(o2) {
      assert o1.gvk + "[" + (QualifiedName(o1) + "]") == KubeIdentifier(o1);
      assert o2.gvk + "[" + (QualifiedName(o2) + "]") == KubeIdentifier(o2);
      BracketSplit(o1.gvk, QualifiedName(o1) + "]", o2.gvk, QualifiedName(o2) + "]");
      assert QualifiedName(o1) == (QualifiedName(o1) + "]")[..|QualifiedName(o1) + "]"| - 1];
      assert QualifiedName(o2) == (QualifiedName(o2) + "]")[..|QualifiedName(o2) + "]"| - 1];
      QualifiedNameInjective(o1, o2);
    }
  }
}
