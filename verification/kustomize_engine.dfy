/** kustomize.go: the kustomize engine. `RenderKustomize` locates the
    kustomization file of an entrypoint and builds it; `Diff` renders both
    revisions through `extractConcurrent` and runs the resource-map diff
    (the same steps as `doResmapDiff`, written inline), wrapping resources as
    kustomize resources whose origin takes the entrypoint's hash or branch. */
module KustomizeEngine {
  import opened Base
  import GoPath
  import opened KubeObjects
  import opened Entrypoints
  import opened ResourceDiffs
  import opened Extract
  import opened ResmapDiff
  import opened KubeExtraction
  import opened KustomizeDifferEngine

  const KustomizationFileSuffix: string := "kustomization.yaml"

  /** The kustomization file of a directory: the argument itself when it
      already names such a file, else the file name joined onto it. Either
      way the result names a kustomization file. */
  function KustomizationPath(dir: string): (p: string)
    ensures HasSuffix(p, KustomizationFileSuffix)
    ensures HasSuffix(dir, KustomizationFileSuffix) ==> p == dir
    ensures !HasSuffix(dir, KustomizationFileSuffix) ==> p == GoPath.Join([dir, KustomizationFileSuffix])
  {
    if HasSuffix(dir, KustomizationFileSuffix) then dir
    else
      GoPath.JoinEndsWithName(dir, KustomizationFileSuffix);
      GoPath.Join([dir, KustomizationFileSuffix])
  }

  /** For a clean directory other than "." and "/" that does not already
      name a kustomization file, the file sits directly inside it. */
  lemma KustomizationInDir(dir: string)
    requires GoPath.Clean(dir) == dir && dir != "." && dir != "/" && !HasSuffix(dir, KustomizationFileSuffix)
    ensures KustomizationPath(dir) == dir + "/" + KustomizationFileSuffix
  {
    var rs := [KustomizationFileSuffix];
    assert GoPath.AllNormal(rs) by {
      assert GoPath.IsNormal(KustomizationFileSuffix) by {
        assert KustomizationFileSuffix[0] == 'k';
        forall i | 0 <= i < |KustomizationFileSuffix|
          ensures KustomizationFileSuffix[i] != '/'
        {
        }
      }
    }
    assert GoPath.JoinSegments(rs) == KustomizationFileSuffix;
    GoPath.JoinUnderCleanDir(dir, rs);
  }

  /** A readable kustomization file and what each later step makes of it:
      the YAML decoding, the re-encoding, the write-back and the kustomize
      build (a foreign run). */
  datatype KustomizationFile = KustomizationFile(
    parseErr: Option<Error>,
    marshalErr: Option<Error>,
    writeErr: Option<Error>,
    build: Result<seq<KubeObject>>)

  /** `RenderKustomize`: an unreadable kustomization file yields no
      resources and no error; a failing step yields its wrapped error; a
      successful build yields its resource map. */
  function RenderKustomize(dir: string, files: map<string, KustomizationFile>): (r: Render)
    ensures r == Success(None) <==> KustomizationPath(dir) !in files
    ensures r.Success? && r.value.Some? ==> files[KustomizationPath(dir)].build == Success(r.value.value)
    ensures r.Failure? ==> KustomizationPath(dir) in files && r.error.Wrap?
    ensures r.Failure? && r.error.context == "unable to build entrypoint with  kustomize - " ==>
      files[KustomizationPath(dir)].build == Failure(r.error.cause)
  {
    var kustfile := KustomizationPath(dir);
    if kustfile !in files then Success(None)
    else
      var f := files[kustfile];
      if f.parseErr.Some? then Failure(Wrap("unable to parse kustomization - ", f.parseErr.value))
      else if f.marshalErr.Some? then Failure(Wrap("unable to marshal - ", f.marshalErr.value))
      else if f.writeErr.Some? then Failure(Wrap("unable to write new kustomization - ", f.writeErr.value))
      else match f.build
        case Failure(e) => Failure(Wrap("unable to build entrypoint with  kustomize - ", e))
        case Success(rm) => Success(Some(rm))
  }

  /** Every build that succeeds is a resource map. */
  predicate ValidFiles(files: map<string, KustomizationFile>) {
    forall p :: p in files && files[p].build.Success? ==> UniqueIds(files[p].build.value)
  }

  /** `kubeDiffer.Diff` of kustomize.go: the records, every old and every new
      resource wrapped, and the joined structural-diff errors. */
  method Diff(repoUrl: string, ep: RefEntrypoint, oldPath: string, newPath: string,
              files: map<string, KustomizationFile>, sd: StructuralDiff, c: Cleaner)
    returns (r: KubeOutcome)
    requires ValidFiles(files) && IdPreserving(c)
    ensures r == EngineOutcome(RenderKustomize(oldPath, files), RenderKustomize(newPath, files), sd, c,
                               KustomizeWrapping(repoUrl, ep))
  {
    var pre := RenderKustomize(oldPath, files);
    var post := RenderKustomize(newPath, files);
    r := RenderAndDiff(pre, post, sd, c, KustomizeWrapping(repoUrl, ep));
  }

  /** An entrypoint whose kustomization file is new in the post revision has
      every resource reported as created, with no error. */
  lemma NewKustomizationCreatesAll(repoUrl: string, ep: RefEntrypoint, oldPath: string, newPath: string,
                                   files: map<string, KustomizationFile>, sd: StructuralDiff, c: Cleaner)
    requires ValidFiles(files) && IdPreserving(c)
    requires KustomizationPath(oldPath) !in files
    requires RenderKustomize(newPath, files).Success? && RenderKustomize(newPath, files).value.Some?
    requires CleanResmap(RenderKustomize(newPath, files).value.value, c).Success?
    ensures var w := KustomizeWrapping(repoUrl, ep);
      var r := EngineOutcome(RenderKustomize(oldPath, files), RenderKustomize(newPath, files), sd, c, w);
      var n := RenderKustomize(newPath, files).value.value;
      var cn := CleanResmap(n, c).value;
      && r.err.None? && r.diff.Some? && |r.diff.value| == |n|
      && (forall i :: 0 <= i < |n| ==> r.diff.value[i] == ResourceDiff(Create, None, Some(Expose(w, n[i], cn[i])), []))
  {
    var post := RenderKustomize(newPath, files);
    var w := KustomizeWrapping(repoUrl, ep);
    assert ExtractRule(RenderKustomize(oldPath, files), post) == Extracted(None, post.value, None);
    assert UniqueIds(files[KustomizationPath(newPath)].build.value);
    NilOldMapCreatesAll(post.value, sd, c, w);
  }
}
