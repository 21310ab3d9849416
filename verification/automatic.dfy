/** entrypoint/automatic.go: the automatic entrypoint builder. Given a path of
    the repository and whether it is a file, it tries the supported types in
    a fixed order (CDK, CloudFormation, Kubernetes, kustomize, Terraform) and
    builds an entrypoint of the first type whose check accepts the path.
    CloudFormation is tried on files only, every other type on directories
    only. */
module Automatic {
  import opened Base
  import opened Host
  import opened Entrypoints
  import opened EntrypointValidity
  import GoPath
  import Discovery

  /** `EntrypointAutomaticDiscovery`: which types are tried, and the context
      every built entrypoint receives a copy of. */
  datatype AutomaticDiscovery = AutomaticDiscovery(supportedTypes: map<EntrypointType, bool>, context: Context)

  /** `DefaultSupportedTypes`: every type but the two HCL ones. */
  const DefaultSupportedTypes: map<EntrypointType, bool> := map[
    Cdk := true,
    HclV1 := false,
    HclV2 := false,
    Cloudformation := true,
    Kubernetes := true,
    Kustomize := true,
    Terraform := true]

  /** `AutomaticDiscovery(ctx)`: the default types and the given context. */
  function AutomaticDiscoveryOf(ctx: Context): (ad: AutomaticDiscovery)
    ensures ad.context == ctx
    ensures forall t :: t in ad.supportedTypes ==> t in {Cdk, HclV1, HclV2, Cloudformation, Kubernetes, Kustomize, Terraform}
  {
    AutomaticDiscovery(DefaultSupportedTypes, ctx)
  }

  /** `SupportedTypes[t]`: a type missing from the map reads as false. */
  predicate Enabled(ad: AutomaticDiscovery, t: EntrypointType) {
    t in ad.supportedTypes && ad.supportedTypes[t]
  }

  /** The order in which `MakeEntrypoint` tries the types. */
  const Priority: seq<EntrypointType> := [Cdk, Cloudformation, Kubernetes, Kustomize, Terraform]

  /** Type `t` accepts the path `abs`: it is enabled, the path is a file
      exactly when `t` is CloudFormation, and the type's check holds. */
  predicate Acceptable(ad: AutomaticDiscovery, fs: FileSystem, abs: string, isFile: bool, t: EntrypointType) {
    && Enabled(ad, t)
    && (t == Cloudformation <==> isFile)
    && IsValidEntrypoint(fs, abs, t)
  }

  /** The position in `Priority`, from `i` on, of the first type that
      accepts the path. */
  function FirstAcceptable(ad: AutomaticDiscovery, fs: FileSystem, abs: string, isFile: bool, i: nat): (r: Option<nat>)
    requires i <= |Priority|
    ensures r.Some? ==> i <= r.value < |Priority| && Acceptable(ad, fs, abs, isFile, Priority[r.value])
    ensures r.Some? ==> forall j :: i <= j < r.value ==> !Acceptable(ad, fs, abs, isFile, Priority[j])
    ensures r.None? <==> forall j :: i <= j < |Priority| ==> !Acceptable(ad, fs, abs, isFile, Priority[j])
    decreases |Priority| - i
  {
    if i == |Priority| then None
    else if Acceptable(ad, fs, abs, isFile, Priority[i]) then Some(i)
    else FirstAcceptable(ad, fs, abs, isFile, i + 1)
  }

  /** What `MakeEntrypoint(basedir, repoPath, isFile)` returns: nothing when
      no type accepts `basedir/repoPath`, else the entrypoint of the first
      type that does, named by the slug of the repository path, rooted at
      that path and holding the builder's context. */
  function MakeEntrypointSpec(ad: AutomaticDiscovery, fs: FileSystem, basedir: string, repoPath: string, isFile: bool, slug: Discovery.Slugger): (r: Option<Entrypoint>)
    ensures var abs := GoPath.Join([basedir, repoPath]);
      && (r.None? <==> forall j :: 0 <= j < |Priority| ==> !Acceptable(ad, fs, abs, isFile, Priority[j]))
      && (r.Some? ==>
            && r.value.name == slug(repoPath) && r.value.directory == repoPath && r.value.context == ad.context
            && Enabled(ad, r.value.typ) && IsValidEntrypoint(fs, abs, r.value.typ)
            && (r.value.typ == Cloudformation <==> isFile)
            && exists k :: 0 <= k < |Priority| && Priority[k] == r.value.typ &&
                 forall j :: 0 <= j < k ==> !Acceptable(ad, fs, abs, isFile, Priority[j]))
  {
    var abs := GoPath.Join([basedir, repoPath]);
    match FirstAcceptable(ad, fs, abs, isFile, 0)
    case None => None
    case Some(k) => Some(Entrypoint(slug(repoPath), repoPath, Priority[k], ad.context))
  }

  /** `MakeEntrypoint`. The source also returns an error, which is always
      nil. */
  method MakeEntrypoint(ad: AutomaticDiscovery, fs: FileSystem, basedir: string, repoPath: string, isFile: bool, slug: Discovery.Slugger)
    returns (ep: Option<Entrypoint>)
    ensures ep == MakeEntrypointSpec(ad, fs, basedir, repoPath, isFile, slug)
  {
    var abs := GoPath.Join([basedir, repoPath]);
    ghost var first := FirstAcceptable(ad, fs, abs, isFile, 0);
    if Enabled(ad, Cdk) && !isFile {
      if IsValidCdk(fs, abs) {
        assert first == Some(0);
        var ctx := Discovery.CopyMap(ad.context);
        return Some(Entrypoint(slug(repoPath), repoPath, Cdk, ctx));
      }
    }
    assert !Acceptable(ad, fs, abs, isFile, Priority[0]);
    if Enabled(ad, Cloudformation) && isFile {
      if IsValidCloudformation(fs, abs) {
        assert first == Some(1);
        var ctx := Discovery.CopyMap(ad.context);
        return Some(Entrypoint(slug(repoPath), repoPath, Cloudformation, ctx));
      }
    }
    assert !Acceptable(ad, fs, abs, isFile, Priority[1]);
    if Enabled(ad, Kubernetes) && !isFile {
      var valid := IsValidKubernetes(fs, abs);
      if valid {
        assert first == Some(2);
        var ctx := Discovery.CopyMap(ad.context);
        return Some(Entrypoint(slug(repoPath), repoPath, Kubernetes, ctx));
      }
    }
    assert !Acceptable(ad, fs, abs, isFile, Priority[2]);
    if Enabled(ad, Kustomize) && !isFile {
      if IsValidKustomize(fs, abs) {
        assert first == Some(3);
        var ctx := Discovery.CopyMap(ad.context);
        return Some(Entrypoint(slug(repoPath), repoPath, Kustomize, ctx));
      }
    }
    assert !Acceptable(ad, fs, abs, isFile, Priority[3]);
    if Enabled(ad, Terraform) && !isFile {
      var valid := IsValidTerraform(fs, abs);
      if valid {
        assert first == Some(4);
        var ctx := Discovery.CopyMap(ad.context);
        return Some(Entrypoint(slug(repoPath), repoPath, Terraform, ctx));
      }
    }
    assert !Acceptable(ad, fs, abs, isFile, Priority[4]);
    return None;
  }

  /** The default builder tries exactly the five types of `Priority`: the
      two HCL types are never enabled. */
  lemma DefaultsEnablePriority(ctx: Context, t: EntrypointType)
    ensures Enabled(AutomaticDiscoveryOf(ctx), t) <==> t in Priority
  {
    var ad := AutomaticDiscoveryOf(ctx);
    if t in Priority {
      var k :| 0 <= k < |Priority| && Priority[k] == t;
      assert k == 0 || k == 1 || k == 2 || k == 3 || k == 4;
    }
  }

  /** The default builder never produces an HCL entrypoint, and a type that
      is switched off is never produced by any builder. */
  lemma OnlyEnabledTypes(ad: AutomaticDiscovery, fs: FileSystem, basedir: string, repoPath: string, isFile: bool, slug: Discovery.Slugger)
    ensures var r := MakeEntrypointSpec(ad, fs, basedir, repoPath, isFile, slug);
      && (r.Some? ==> Enabled(ad, r.value.typ) && r.value.typ in Priority)
      && (ad.supportedTypes == DefaultSupportedTypes && r.Some? ==> r.value.typ != HclV1 && r.value.typ != HclV2)
  {
    var r := MakeEntrypointSpec(ad, fs, basedir, repoPath, isFile, slug);
    if r.Some? {
      var k :| 0 <= k < |Priority| && Priority[k] == r.value.typ &&
        forall j :: 0 <= j < k ==> !Acceptable(ad, fs, GoPath.Join([basedir, repoPath]), isFile, Priority[j]);
      if ad.supportedTypes == DefaultSupportedTypes {
        DefaultsEnablePriority(ad.context, r.value.typ);
        assert AutomaticDiscoveryOf(ad.context) == ad;
      }
    }
  }

  /** A directory that is both a CDK app and anything else becomes a CDK
      entrypoint; one holding both manifests and a kustomization becomes a
      Kubernetes entrypoint, when both types are enabled. */
  lemma EarlierTypeWins(ad: AutomaticDiscovery, fs: FileSystem, basedir: string, repoPath: string, slug: Discovery.Slugger)
    ensures var abs := GoPath.Join([basedir, repoPath]);
      var r := MakeEntrypointSpec(ad, fs, basedir, repoPath, false, slug);
      && (Enabled(ad, Cdk) && IsValidCdk(fs, abs) ==> r.Some? && r.value.typ == Cdk)
      && (Enabled(ad, Kubernetes) && HasManifest(fs, abs) && !(Enabled(ad, Cdk) && IsValidCdk(fs, abs)) ==>
            r.Some? && r.value.typ == Kubernetes)
  {
    var abs := GoPath.Join([basedir, repoPath]);
    var first := FirstAcceptable(ad, fs, abs, false, 0);
    if Enabled(ad, Cdk) && IsValidCdk(fs, abs) {
      assert Acceptable(ad, fs, abs, false, Priority[0]);
      assert first == Some(0);
    } else if Enabled(ad, Kubernetes) && HasManifest(fs, abs) {
      assert !Acceptable(ad, fs, abs, false, Priority[1]);
      assert Acceptable(ad, fs, abs, false, Priority[2]);
      assert first == Some(2);
    }
  }
}
