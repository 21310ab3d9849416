/** entrypoint/util.go: the per-type checks that a discovered path really is an
    entrypoint of that type, and the named-capture extraction used by the
    regex matcher. */
module EntrypointValidity {
  import opened Base
  import opened Host
  import opened Entrypoints
  import GoPath
  import KubeFiles

  /** The decoder a template is read with: JSON when the path mentions
      `.json`, YAML otherwise. */
  function DecoderFor(epPath: string, doc: Document): Decoded {
    if Contains(epPath, ".json") then doc.asJson else doc.asYaml
  }

  /** `isValidCloudformationEntrypoint`: the file is readable, decodes as a
      mapping and has a top-level `Resources` key. The scan over the resources
      that follows in the source returns true on every path, so it cannot
      change the answer and is not repeated here. */
  function IsValidCloudformation(fs: FileSystem, epPath: string): (valid: bool)
    ensures valid ==> epPath in fs.files
    ensures epPath in fs.files ==>
      (valid <==> match DecoderFor(epPath, fs.files[epPath]).topLevelKeys
                  case None => false
                  case Some(keys) => "Resources" in keys)
  {
    if epPath !in fs.files then false
    else
      match DecoderFor(epPath, fs.files[epPath]).topLevelKeys
      case None => false
      case Some(keys) => "Resources" in keys
  }

  /** `isValidCdkEntrypoint`: `<dir>/cdk.json` exists. */
  predicate IsValidCdk(fs: FileSystem, epPath: string) {
    Exists(fs, GoPath.Join([epPath, "cdk.json"]))
  }

  /** `isValidKustomizeEntrypoint`: `<dir>/kustomization.yaml` exists. */
  predicate IsValidKustomize(fs: FileSystem, epPath: string) {
    Exists(fs, GoPath.Join([epPath, "kustomization.yaml"]))
  }

  /** The specification of the Kubernetes check: the directory can be listed
      and one of its entries is a manifest. */
  predicate HasManifest(fs: FileSystem, epPath: string) {
    epPath in fs.dirs &&
    exists i :: 0 <= i < |fs.dirs[epPath]| && KubeFiles.IsValidKubeFile(fs, GoPath.Join([epPath, fs.dirs[epPath][i]]))
  }

  /** The specification of the Terraform check: the directory can be listed and
      one of its entries is named `*.tf`. */
  predicate HasTerraformFile(fs: FileSystem, epPath: string) {
    epPath in fs.dirs &&
    exists i :: 0 <= i < |fs.dirs[epPath]| && HasSuffix(fs.dirs[epPath][i], ".tf")
  }

  /** `isValidKubernetesEntrypoint`: scans the listing and stops at the first
      manifest; an unreadable directory is not an entrypoint. */
  method IsValidKubernetes(fs: FileSystem, epPath: string) returns (valid: bool)
    ensures valid <==> HasManifest(fs, epPath)
  {
    if epPath !in fs.dirs {
      return false;
    }
    var files := fs.dirs[epPath];
    var i := 0;
    while i < |files|
      invariant 0 <= i <= |files|
      invariant forall j :: 0 <= j < i ==> !KubeFiles.IsValidKubeFile(fs, GoPath.Join([epPath, files[j]]))
    {
      if KubeFiles.IsValidKubeFile(fs, GoPath.Join([epPath, files[i]])) {
        return true;
      }
      i := i + 1;
    }
    return false;
  }

  /** `isValidTerraformEntrypoint`: scans the listing and stops at the first
      `*.tf` entry; an unreadable directory is not an entrypoint. */
  method IsValidTerraform(fs: FileSystem, epPath: string) returns (valid: bool)
    ensures valid <==> HasTerraformFile(fs, epPath)
  {
    if epPath !in fs.dirs {
      return false;
    }
    var files := fs.dirs[epPath];
    var i := 0;
    while i < |files|
      invariant 0 <= i <= |files|
      invariant forall j :: 0 <= j < i ==> !HasSuffix(files[j], ".tf")
    {
      if HasSuffix(files[i], ".tf") {
        return true;
      }
      i := i + 1;
    }
    return false;
  }

  /** `isValidEntrypoint`: dispatch on the type. `hclv1` is checked like a CDK
      app; `hclv2` and every unknown type are never valid. */
  function IsValidEntrypoint(fs: FileSystem, epPath: string, t: EntrypointType): (valid: bool)
    ensures t == Cloudformation ==> (valid <==> IsValidCloudformation(fs, epPath))
    ensures t == Cdk || t == HclV1 ==> (valid <==> IsValidCdk(fs, epPath))
    ensures t == Kubernetes ==> (valid <==> HasManifest(fs, epPath))
    ensures t == Kustomize ==> (valid <==> IsValidKustomize(fs, epPath))
    ensures t == Terraform ==> (valid <==> HasTerraformFile(fs, epPath))
    ensures valid ==> t in {Cloudformation, Cdk, Kubernetes, Kustomize, Terraform, HclV1}
  {
    if t == Cloudformation then IsValidCloudformation(fs, epPath)
    else if t == Cdk then IsValidCdk(fs, epPath)
    else if t == Kubernetes then HasManifest(fs, epPath)
    else if t == Kustomize then IsValidKustomize(fs, epPath)
    else if t == Terraform then HasTerraformFile(fs, epPath)
    else if t == HclV1 then IsValidCdk(fs, epPath)
    else false
  }

  // ---------------------------------------------------------------------------
  // Named captures

  /** A compiled regular expression, seen from outside: the names of its
      groups (`SubexpNames`, index 0 is the whole match) and
      `FindStringSubmatch`, which yields one submatch per group or no match. */
  datatype Regex = Regex(names: seq<string>, find: string -> Option<seq<string>>)

  /** What the `regexp` package guarantees: a match has one entry per group. */
  ghost predicate WellFormed(rx: Regex) {
    forall s :: rx.find(s).Some? ==> |rx.find(s).value| == |rx.names|
  }

  /** The capture map after the first `n` groups have been visited. */
  function CapturesUpTo(names: seq<string>, groups: seq<string>, n: nat): map<string, string>
    requires n <= |names| == |groups|
    decreases n
  {
    if n == 0 then map[]
    else
      var m := CapturesUpTo(names, groups, n - 1);
      if n - 1 != 0 && names[n - 1] != "" then m[names[n - 1] := groups[n - 1]] else m
  }

  /** A group index is the last one bearing a given name. */
  predicate LastNamed(names: seq<string>, n: nat, k: string, i: int) {
    1 <= i < n <= |names| && names[i] == k && forall j :: i < j < n ==> names[j] != k
  }

  /** Exactly the named groups other than the whole match become keys, and a
      key holds the submatch of the last group bearing its name. */
  lemma {:induction false} CapturesUpToKeys(names: seq<string>, groups: seq<string>, n: nat, k: string)
    requires n <= |names| == |groups|
    ensures k in CapturesUpTo(names, groups, n) <==> k != "" && exists i :: 1 <= i < n && names[i] == k
    ensures k in CapturesUpTo(names, groups, n) ==>
      exists i :: LastNamed(names, n, k, i) && CapturesUpTo(names, groups, n)[k] == groups[i]
    decreases n
  {
    if n > 0 {
      CapturesUpToKeys(names, groups, n - 1, k);
      var m := CapturesUpTo(names, groups, n - 1);
      if n - 1 != 0 && names[n - 1] == k && k != "" {
        assert LastNamed(names, n, k, n - 1);
      } else if k in m {
        var i :| LastNamed(names, n - 1, k, i) && m[k] == groups[i];
        assert LastNamed(names, n, k, i);
      }
    }
  }

  /** `regexNamedMatches`: no match gives `(nil, false)`; otherwise the map from
      every group name (other than the whole match and unnamed groups) to its
      submatch. */
  method RegexNamedMatches(str: string, rx: Regex) returns (result: Option<map<string, string>>)
    requires WellFormed(rx)
    ensures result.None? <==> rx.find(str).None?
    ensures result.Some? ==> result.value == CapturesUpTo(rx.names, rx.find(str).value, |rx.names|)
  {
    var found := rx.find(str);
    if found.None? {
      return None;
    }
    var groups := found.value;
    var captures: map<string, string> := map[];
    var i := 0;
    while i < |rx.names|
      invariant 0 <= i <= |rx.names|
      invariant captures == CapturesUpTo(rx.names, groups, i)
    {
      var name := rx.names[i];
      if i != 0 && name != "" {
        captures := captures[name := groups[i]];
      }
      i := i + 1;
    }
    return Some(captures);
  }
}
