/** `kubeEntrypointOrigin`: the provenance attached to every Kubernetes and
    kustomize resource. The path is re-rooted under the entrypoint directory;
    an origin without a repository is attributed to the diffed repository.
    kustomize_differ.go and kustomize.go choose the reference from the
    entrypoint's hash and branch; kubernetes.go always says "unknown". */
module KubeOrigin {
  import opened Base
  import opened GoPath
  import opened Entrypoints
  import opened KubeObjects

  /** `filepath.Abs(path.Join("/", dir, p))[1:]`. The joined path is rooted, so
      `Abs` cannot fail and amounts to cleaning; the result never starts with
      a slash and holds only real elements, so it never climbs above the
      repository root. */
  function Reroot(dir: string, p: string): (r: string)
    ensures r == [] || r[0] != '/'
    ensures r == [] || AllNormal(Split(r))
  {
    JoinRootBuffer(dir, p);
    var buf := JoinBuffer(["/", dir, p]);
    CleanRootedTail(buf);
    CleanIdempotentRooted(buf);
    Abs(GoPath.Join(["/", dir, p]))[1..]
  }

  /** Re-rooting is the joined path without its leading slash. */
  lemma RerootJoined(dir: string, p: string)
    ensures IsAbs(GoPath.Join(["/", dir, p]))
    ensures Reroot(dir, p) == GoPath.Join(["/", dir, p])[1..]
  {
    JoinRootBuffer(dir, p);
    var buf := JoinBuffer(["/", dir, p]);
    CleanRootedTail(buf);
    CleanIdempotentRooted(buf);
  }

  /** An origin path made of plain elements lands at `dir/p`. */
  lemma RerootPlain(ds: seq<string>, ps: seq<string>)
    requires |ds| >= 1 && |ps| >= 1 && AllNormal(ds) && AllNormal(ps)
    ensures Reroot(JoinSegments(ds), JoinSegments(ps)) == JoinSegments(ds) + "/" + JoinSegments(ps)
  {
    var d, q := JoinSegments(ds), JoinSegments(ps);
    var j := GoPath.Join(["/", d, q]);
    assert j == "/" + (d + "/" + q) by {
      JoinUnderRoot(ds, ps);
    }
    assert Reroot(d, q) == j[1..] by {
      RerootJoined(d, q);
    }
  }

  /** The reference recorded by kustomize_differ.go and kustomize.go: the
      commit hash when it is set, else the reference name when it is a
      branch, else "unknown". */
  function RefName(ep: RefEntrypoint): (ref: string)
    ensures ep.hash.Some? ==> ref == ep.hash.value
    ensures ep.hash.None? && IsBranch(ep.branch) ==> ref == ep.branch
    ensures ep.hash.None? && !IsBranch(ep.branch) ==> ref == "unknown"
  {
    match ep.hash
    case Some(h) => h
    case None => if IsBranch(ep.branch) then ep.branch else "unknown"
  }

  /** The path step shared by every version: a non-empty path is re-rooted. */
  function RebasePath(dir: string, o: Origin): (r: Origin)
    ensures r.repo == o.repo && r.ref == o.ref
    ensures o.path == "" ==> r.path == ""
    ensures o.path != "" ==> r.path == Reroot(dir, o.path)
  {
    if o.path != "" then o.(path := Reroot(dir, o.path)) else o
  }

  /** `kubeEntrypointOrigin` of kustomize_differ.go and kustomize.go. */
  function OriginByRef(repoUrl: string, ep: RefEntrypoint, o: Option<Origin>): (r: Origin)
    ensures o.None? ==> r == Origin(ep.ep.directory, "", "Unknown")
    ensures o.Some? ==> r.path == RebasePath(ep.ep.directory, o.value).path
    ensures o.Some? && o.value.repo != "" ==> r.repo == o.value.repo && r.ref == o.value.ref
    ensures o.Some? && o.value.repo == "" ==> r.repo == repoUrl && r.ref == RefName(ep)
  {
    match o
    case None => Origin(ep.ep.directory, "", "Unknown")
    case Some(given) =>
      var rebased := RebasePath(ep.ep.directory, given);
      if rebased.repo == "" then rebased.(repo := repoUrl, ref := RefName(ep)) else rebased
  }

  /** `kubeEntrypointOrigin` of kubernetes.go: the same, except that an origin
      without a repository always gets the reference "unknown". */
  function OriginUnknownRef(repoUrl: string, ep: Entrypoint, o: Option<Origin>): (r: Origin)
    ensures o.None? ==> r == Origin(ep.directory, "", "Unknown")
    ensures o.Some? ==> r.path == RebasePath(ep.directory, o.value).path
    ensures o.Some? && o.value.repo != "" ==> r.repo == o.value.repo && r.ref == o.value.ref
    ensures o.Some? && o.value.repo == "" ==> r.repo == repoUrl && r.ref == "unknown"
  {
    match o
    case None => Origin(ep.directory, "", "Unknown")
    case Some(given) =>
      var rebased := RebasePath(ep.directory, given);
      if rebased.repo == "" then rebased.(repo := repoUrl, ref := "unknown") else rebased
  }

  /** The two versions agree except on the reference they give an origin
      without a repository; they agree everywhere when the entrypoint has
      neither a hash nor a branch. */
  lemma OriginVersionsAgree(repoUrl: string, ep: RefEntrypoint, o: Option<Origin>)
    ensures OriginByRef(repoUrl, ep, o).(ref := "") == OriginUnknownRef(repoUrl, ep.ep, o).(ref := "")
    ensures ep.hash.None? && !IsBranch(ep.branch) ==> OriginByRef(repoUrl, ep, o) == OriginUnknownRef(repoUrl, ep.ep, o)
  {
  }
}
