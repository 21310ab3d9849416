/** entrypoint/discovery.go: regex-driven entrypoint discovery. The walk of
    the tree (`filepath.WalkDir`) is foreign: it is given as the sequence of
    paths it visits, in its order, each marked as a directory or not. Each
    path is matched against the specs in order; the first eligible spec whose
    regex matches decides the path, and a candidate that fails the (older)
    validity check is skipped. */
module Discovery {
  import opened Base
  import opened Host
  import opened Entrypoints
  import opened EntrypointValidity
  import GoPath

  /** `EntrypointDiscoverySpec`. */
  datatype DiscoverySpec = DiscoverySpec(typ: EntrypointType, regex: Regex, files: bool, context: Context)

  /** A path the walk visits. */
  datatype WalkEntry = WalkEntry(path: string, isDir: bool)

  /** `slug.Make`, foreign. */
  type Slugger = string -> string

  // ---------------------------------------------------------------------------
  // The older `isValidEntrypoint`

  /** `isValidEntrypoint` of discovery.go: a CloudFormation file is valid when
      it is readable, decodes, and names a template format version; a CDK app
      when `cdk.json` exists beside it; Terraform and Kustomize always; every
      other type never. */
  function IsValidEntrypointOld(fs: FileSystem, epPath: string, t: EntrypointType): (valid: bool)
    ensures t == Cloudformation ==>
      (valid <==> epPath in fs.files && DecoderFor(epPath, fs.files[epPath]).cfnVersion.Some?
                  && DecoderFor(epPath, fs.files[epPath]).cfnVersion.value != "")
    ensures t == Cdk ==> (valid <==> IsValidCdk(fs, epPath))
    ensures t == Terraform || t == Kustomize ==> valid
    ensures t != Cloudformation && t != Cdk && t != Terraform && t != Kustomize ==> !valid
  {
    if t == Cloudformation && epPath in fs.files then
      match DecoderFor(epPath, fs.files[epPath]).cfnVersion
      case None => false
      case Some(v) => v != ""
    else if t == Cdk && IsValidCdk(fs, epPath) then true
    else t == Terraform || t == Kustomize
  }

  /** Against the checks of util.go, the older check accepts every Terraform
      and Kustomize directory and never a Kubernetes one; for CDK apps the two
      agree. */
  lemma OldValidityAgainstNew(fs: FileSystem, epPath: string)
    ensures IsValidEntrypoint(fs, epPath, Terraform) ==> IsValidEntrypointOld(fs, epPath, Terraform)
    ensures IsValidEntrypoint(fs, epPath, Kustomize) ==> IsValidEntrypointOld(fs, epPath, Kustomize)
    ensures IsValidEntrypointOld(fs, epPath, Cdk) == IsValidEntrypoint(fs, epPath, Cdk)
    ensures !IsValidEntrypointOld(fs, epPath, Kubernetes)
  {
  }

  // ---------------------------------------------------------------------------
  // One path

  /** The path relative to the walked root: the root prefix cut off and every
      leading slash trimmed. */
  function RealPath(root: string, p: string): (r: string)
    requires |root| <= |p|
    ensures |r| <= |p| - |root| && r == p[|p| - |r|..]
    ensures r == [] || r[0] != '/'
  {
    TrimLeadingSlashes(p[|root|..])
  }

  /** The path relative to the root as the walk callback means it. A walk
      of `.` reports its entries without a `./` prefix (`filepath.Join(".",
      "app")` is `app`), so cutting off the root's length there would cut
      the entry's first character instead; under `.` every entry but the
      root itself is already relative. */
  function RelativePath(root: string, p: string): (r: string)
    requires |root| <= |p|
  {
    if root == "." && p != "." then p else RealPath(root, p)
  }

  /** A relative path of real elements starts with neither a slash nor is
      it `.`. */
  lemma RelativeShape(rs: seq<string>)
    requires |rs| >= 1 && GoPath.AllNormal(rs)
    ensures var rel := GoPath.JoinSegments(rs);
      |rel| >= 1 && rel[0] != '/' && rel != "." && TrimLeadingSlashes(rel) == rel
  {
    var rel := GoPath.JoinSegments(rs);
    GoPath.JoinSegmentsHead(rs);
    assert GoPath.IsNormal(rs[0]);
    if |rs| > 1 {
      assert |rel| >= |rs[0]| + 1;
    }
  }

  /** As written, under the root `.` the prefix cut drops the first character
      of every entry the walk reports (`app` becomes `pp`). */
  lemma RealPathUnderDotAsWritten(rs: seq<string>)
    requires |rs| >= 1 && GoPath.AllNormal(rs)
    ensures var rel := GoPath.JoinSegments(rs);
      && GoPath.Clean(".") == "."
      && GoPath.Join([".", rel]) == rel
      && RealPath(".", rel) == TrimLeadingSlashes(rel[1..])
      && RealPath(".", rel) != rel
  {
    GoPath.CleanDot();
    GoPath.JoinUnderDot(rs);
    RelativeShape(rs);
  }

  /** The example: a walk of `.` reports the directory `app`, which becomes
      the entrypoint directory `pp`. */
  lemma DotWalkExampleAsWritten()
    ensures GoPath.Join([".", "app"]) == "app" && RealPath(".", "app") == "pp"
  {
    assert GoPath.JoinSegments(["app"]) == "app";
    GoPath.JoinUnderDot(["app"]);
    assert "app"[1..] == "pp";
  }

  lemma RelativeUnderDot(rs: seq<string>)
    requires |rs| >= 1 && GoPath.AllNormal(rs)
    ensures var p := GoPath.Join([".", GoPath.JoinSegments(rs)]);
      1 <= |p| && RelativePath(".", p) == GoPath.JoinSegments(rs)
  {
    GoPath.JoinUnderDot(rs);
    RelativeShape(rs);
  }

  lemma RelativeUnderSlash(rs: seq<string>)
    requires |rs| >= 1 && GoPath.AllNormal(rs)
    ensures var p := GoPath.Join(["/", GoPath.JoinSegments(rs)]);
      1 <= |p| && RelativePath("/", p) == GoPath.JoinSegments(rs)
  {
    var rel := GoPath.JoinSegments(rs);
    GoPath.JoinUnderSlash(rs);
    RelativeShape(rs);
    assert ("/" + rel)[1..] == rel;
  }

  lemma RelativeUnderDir(root: string, rs: seq<string>)
    requires GoPath.Clean(root) == root && root != "." && root != "/" && |rs| >= 1 && GoPath.AllNormal(rs)
    ensures var p := GoPath.Join([root, GoPath.JoinSegments(rs)]);
      |root| <= |p| && RelativePath(root, p) == GoPath.JoinSegments(rs)
  {
    var rel := GoPath.JoinSegments(rs);
    assert GoPath.Join([root, rel]) == root + "/" + rel by {
      GoPath.JoinUnderCleanDir(root, rs);
    }
    RelativeShape(rs);
    CutRoot(root, rel);
  }

  /** Cutting a root other than `.` off `root/rel` leaves `rel`. */
  lemma CutRoot(root: string, rel: string)
    requires root != "." && TrimLeadingSlashes(rel) == rel
    ensures RelativePath(root, root + "/" + rel) == rel
  {
    assert (root + "/" + rel)[|root|..] == "/" + rel;
    assert ("/" + rel)[1..] == rel;
  }

  /** Corrected, every path the walk reports for a cleaned root, the root
      itself or the root joined with a relative path of real elements, maps
      back to that relative path. */
  lemma RelativePathOfWalk(root: string, rs: seq<string>)
    requires GoPath.Clean(root) == root && |rs| >= 1 && GoPath.AllNormal(rs)
    ensures RelativePath(root, root) == ""
    ensures var p := GoPath.Join([root, GoPath.JoinSegments(rs)]);
      |root| <= |p| && RelativePath(root, p) == GoPath.JoinSegments(rs)
  {
    if root == "." {
      RelativeUnderDot(rs);
    } else if root == "/" {
      RelativeUnderSlash(rs);
    } else {
      RelativeUnderDir(root, rs);
    }
  }

  /** A path under version-control metadata: its first four characters are
      `.git` (which also catches `.github` and `.gitignore`). */
  predicate IsGitPath(realpath: string) {
    |realpath| >= 4 && realpath[..4] == ".git"
  }

  /** A spec looks at directories, and at files only when it asks to. */
  predicate Eligible(s: DiscoverySpec, isDir: bool) {
    isDir || s.files
  }

  predicate Decides(s: DiscoverySpec, realpath: string, isDir: bool) {
    Eligible(s, isDir) && s.regex.find(realpath).Some?
  }

  /** The first spec, from `i` on, that is eligible and whose regex matches. */
  function FirstMatchFrom(specs: seq<DiscoverySpec>, realpath: string, isDir: bool, i: int): (r: Option<int>)
    requires 0 <= i <= |specs|
    ensures r.Some? ==> i <= r.value < |specs| && Decides(specs[r.value], realpath, isDir)
    ensures r.Some? ==> forall j :: i <= j < r.value ==> !Decides(specs[j], realpath, isDir)
    ensures r.None? ==> forall j :: i <= j < |specs| ==> !Decides(specs[j], realpath, isDir)
    decreases |specs| - i
  {
    if i == |specs| then None
    else if Decides(specs[i], realpath, isDir) then Some(i)
    else FirstMatchFrom(specs, realpath, isDir, i + 1)
  }

  /** The fixed context overlaid with the captures: every key of either,
      a capture winning over a fixed value of the same key. */
  function Overlay(fixed: Context, captures: map<string, string>): (ctx: Context)
    ensures forall k :: k in ctx <==> k in fixed || k in captures
    ensures forall k :: k in captures ==> ctx[k] == JString(captures[k])
    ensures forall k :: k in fixed && k !in captures ==> ctx[k] == fixed[k]
  {
    map k | k in fixed.Keys + captures.Keys :: if k in captures then JString(captures[k]) else fixed[k]
  }

  /** The overlay is the only context with its keys and values. */
  lemma OverlayUnique(fixed: Context, captures: map<string, string>, ctx: Context)
    requires forall k :: k in ctx <==> k in fixed || k in captures
    requires forall k :: k in captures ==> ctx[k] == JString(captures[k])
    requires forall k :: k in fixed && k !in captures ==> ctx[k] == fixed[k]
    ensures ctx == Overlay(fixed, captures)
  {
  }

  /** The context's `name` when it is a non-empty string, else the path,
      slugified. */
  function NameFor(ctx: Context, realpath: string, slug: Slugger): string {
    if "name" in ctx && ctx["name"].JString? && ctx["name"].s != "" then slug(ctx["name"].s) else slug(realpath)
  }

  /** The spec's type; only an empty one is replaced by the context's `type`
      when that is a string. */
  function TypeFor(specType: EntrypointType, ctx: Context): (t: EntrypointType)
    ensures specType != "" ==> t == specType
    ensures specType == "" && "type" in ctx && ctx["type"].JString? ==> t == ctx["type"].s
    ensures specType == "" && !("type" in ctx && ctx["type"].JString?) ==> t == ""
  {
    if specType == "" && "type" in ctx && ctx["type"].JString? then ctx["type"].s else specType
  }

  /** The named captures of a spec's regex on a path it matches. */
  function CapturesOf(rx: Regex, realpath: string): map<string, string>
    requires WellFormed(rx) && rx.find(realpath).Some?
  {
    CapturesUpTo(rx.names, rx.find(realpath).value, |rx.names|)
  }

  /** The entrypoint a deciding spec builds for a path. */
  function Candidate(s: DiscoverySpec, realpath: string, slug: Slugger): Entrypoint
    requires WellFormed(s.regex) && s.regex.find(realpath).Some?
  {
    var ctx := Overlay(s.context, CapturesOf(s.regex, realpath));
    Entrypoint(NameFor(ctx, realpath, slug), realpath, TypeFor(s.typ, ctx), ctx)
  }

  ghost predicate AllWellFormed(specs: seq<DiscoverySpec>) {
    forall i :: 0 <= i < |specs| ==> WellFormed(specs[i].regex)
  }

  /** What the walk callback contributes for one visited path. */
  function PathEntrypoint(root: string, e: WalkEntry, specs: seq<DiscoverySpec>, fs: FileSystem, slug: Slugger): Option<Entrypoint>
    requires |root| <= |e.path| && AllWellFormed(specs)
  {
    var realpath := RelativePath(root, e.path);
    if IsGitPath(realpath) then None
    else match FirstMatchFrom(specs, realpath, e.isDir, 0)
      case None => None
      case Some(i) =>
        var ep := Candidate(specs[i], realpath, slug);
        if IsValidEntrypointOld(fs, e.path, ep.typ) then Some(ep) else None
  }

  // ---------------------------------------------------------------------------
  // The walk

  predicate UnderRoot(root: string, walk: seq<WalkEntry>) {
    forall i :: 0 <= i < |walk| ==> |root| <= |walk[i].path|
  }

  /** The contributions of every visited path, in walk order. */
  function Contributions(root: string, walk: seq<WalkEntry>, specs: seq<DiscoverySpec>, fs: FileSystem, slug: Slugger): (cs: seq<Option<Entrypoint>>)
    requires UnderRoot(root, walk) && AllWellFormed(specs)
    ensures |cs| == |walk|
  {
    seq(|walk|, i requires 0 <= i < |walk| => PathEntrypoint(root, walk[i], specs, fs, slug))
  }

  /** The entrypoints among the first `n` contributions, in order. */
  function Collected<T>(cs: seq<Option<T>>, n: int): (eps: seq<T>)
    requires 0 <= n <= |cs|
    ensures |eps| <= n
    decreases n
  {
    if n == 0 then [] else Collected(cs, n - 1) + OptSeq(cs[n - 1])
  }

  /** One more visited path adds its contribution. */
  lemma CollectedStep(root: string, walk: seq<WalkEntry>, specs: seq<DiscoverySpec>, fs: FileSystem, slug: Slugger, n: int)
    requires UnderRoot(root, walk) && AllWellFormed(specs) && 0 <= n < |walk|
    ensures Collected(Contributions(root, walk, specs, fs, slug), n + 1)
      == Collected(Contributions(root, walk, specs, fs, slug), n) + OptSeq(PathEntrypoint(root, walk[n], specs, fs, slug))
  {
  }

  /** Every collected entrypoint is some contribution. */
  lemma {:induction false} CollectedSource<T>(cs: seq<Option<T>>, n: int, k: int) returns (i: int)
    requires 0 <= n <= |cs| && 0 <= k < |Collected(cs, n)|
    ensures 0 <= i < n && cs[i] == Some(Collected(cs, n)[k])
    decreases n
  {
    if k < |Collected(cs, n - 1)| {
      i := CollectedSource(cs, n - 1, k);
    } else {
      i := n - 1;
    }
  }

  /** Every contribution is collected. */
  lemma {:induction false} CollectedIncluded<T>(cs: seq<Option<T>>, n: int, i: int)
    requires 0 <= i < n <= |cs| && cs[i].Some?
    ensures cs[i].value in Collected(cs, n)
    decreases n
  {
    if i < n - 1 {
      CollectedIncluded(cs, n - 1, i);
    }
  }

  /** What `DiscoverEntrypoints` returns for a walk of the cleaned root. */
  function Discovered(root: string, walk: seq<WalkEntry>, specs: seq<DiscoverySpec>, fs: FileSystem, slug: Slugger): seq<Entrypoint>
    requires UnderRoot(root, walk) && AllWellFormed(specs)
  {
    Collected(Contributions(root, walk, specs, fs, slug), |walk|)
  }

  // ---------------------------------------------------------------------------
  // The methods

  /** `copyMap` of automatic.go, and the first context loop of the walk
      callback: every entry copied into a new map. */
  method CopyMap(o: Context) returns (c: Context)
    ensures c == o
  {
    c := map[];
    var todo := o.Keys;
    while todo != {}
      invariant todo <= o.Keys
      invariant forall k :: k in c <==> k in o && k !in todo
      invariant forall k :: k in c ==> c[k] == o[k]
      decreases |todo|
    {
      var k :| k in todo;
      c := c[k := o[k]];
      todo := todo - {k};
    }
  }

  /** The second context loop: every capture written over the copy. */
  method OverlayCaptures(fixed: Context, captures: map<string, string>) returns (ctx: Context)
    ensures forall k :: k in ctx <==> k in fixed || k in captures
    ensures forall k :: k in captures ==> ctx[k] == JString(captures[k])
    ensures forall k :: k in fixed && k !in captures ==> ctx[k] == fixed[k]
  {
    ctx := fixed;
    var rest := captures.Keys;
    while rest != {}
      invariant rest <= captures.Keys
      invariant forall k :: k in ctx <==> k in fixed || (k in captures && k !in rest)
      invariant forall k :: k in captures && k !in rest ==> ctx[k] == JString(captures[k])
      invariant forall k :: k in fixed && (k !in captures || k in rest) ==> ctx[k] == fixed[k]
      decreases |rest|
    {
      var k :| k in rest;
      ctx := ctx[k := JString(captures[k])];
      rest := rest - {k};
    }
  }

  /** The entrypoint a matching spec builds: the merged context, the name and
      the type resolved from it. */
  method BuildCandidate(s: DiscoverySpec, realpath: string, captures: map<string, string>, slug: Slugger) returns (ep: Entrypoint)
    requires WellFormed(s.regex) && s.regex.find(realpath).Some? && captures == CapturesOf(s.regex, realpath)
    ensures ep == Candidate(s, realpath, slug)
  {
    var epctx := CopyMap(s.context);
    epctx := OverlayCaptures(epctx, captures);
    OverlayUnique(s.context, captures, epctx);
    var name := "";
    if "name" in epctx && epctx["name"].JString? {
      name := epctx["name"].s;
    }
    if name == "" {
      name := realpath;
    }
    name := slug(name);
    var epType := s.typ;
    if "type" in epctx && epType == "" && epctx["type"].JString? {
      epType := epctx["type"].s;
    }
    ep := Entrypoint(name, realpath, epType, epctx);
  }

  /** The loop over the specs, up to the first that decides the path, with
      the captures of its match. */
  method FirstMatch(specs: seq<DiscoverySpec>, realpath: string, isDir: bool) returns (found: Option<int>, captures: map<string, string>)
    requires AllWellFormed(specs)
    ensures found == FirstMatchFrom(specs, realpath, isDir, 0)
    ensures found.Some? ==> captures == CapturesOf(specs[found.value].regex, realpath)
  {
    var i := 0;
    while i < |specs|
      invariant 0 <= i <= |specs|
      invariant FirstMatchFrom(specs, realpath, isDir, i) == FirstMatchFrom(specs, realpath, isDir, 0)
    {
      if isDir || specs[i].files {
        var matches := RegexNamedMatches(realpath, specs[i].regex);
        if matches.Some? {
          return Some(i), matches.value;
        }
      }
      i := i + 1;
    }
    return None, map[];
  }

  /** The walk callback for one path: a path under `.git` is skipped, the
      first deciding spec builds the candidate, and an invalid candidate is
      dropped without trying later specs. */
  method VisitPath(root: string, e: WalkEntry, specs: seq<DiscoverySpec>, fs: FileSystem, slug: Slugger) returns (ep: Option<Entrypoint>)
    requires |root| <= |e.path| && AllWellFormed(specs)
    ensures ep == PathEntrypoint(root, e, specs, fs, slug)
  {
    var realpath := TrimLeadingSlashes(e.path[|root|..]);
    if root == "." && e.path != root {
      realpath := e.path;
    }
    if |realpath| >= 4 && realpath[..4] == ".git" {
      return None;
    }
    var found, captures := FirstMatch(specs, realpath, e.isDir);
    if found.None? {
      return None;
    }
    var candidate := BuildCandidate(specs[found.value], realpath, captures, slug);
    if !IsValidEntrypointOld(fs, e.path, candidate.typ) {
      return None;
    }
    return Some(candidate);
  }

  /** One visited path: its contribution appended to what the walk has
      collected so far. */
  method WalkStep(root: string, walk: seq<WalkEntry>, specs: seq<DiscoverySpec>, fs: FileSystem, slug: Slugger, n: int, collected: seq<Entrypoint>)
    returns (next: seq<Entrypoint>)
    requires UnderRoot(root, walk) && AllWellFormed(specs) && 0 <= n < |walk|
    requires collected == Collected(Contributions(root, walk, specs, fs, slug), n)
    ensures next == Collected(Contributions(root, walk, specs, fs, slug), n + 1)
  {
    var ep := VisitPath(root, walk[n], specs, fs, slug);
    CollectedStep(root, walk, specs, fs, slug, n);
    next := collected + OptSeq(ep);
  }

  /** The walk of the cleaned root: each visited path in turn. */
  method Walk(root: string, walk: seq<WalkEntry>, specs: seq<DiscoverySpec>, fs: FileSystem, slug: Slugger)
    returns (entrypoints: seq<Entrypoint>)
    requires UnderRoot(root, walk) && AllWellFormed(specs)
    ensures entrypoints == Discovered(root, walk, specs, fs, slug)
  {
    ghost var cs := Contributions(root, walk, specs, fs, slug);
    entrypoints := [];
    var n := 0;
    while n < |walk|
      invariant 0 <= n <= |walk|
      invariant entrypoints == Collected(cs, n)
    {
      entrypoints := WalkStep(root, walk, specs, fs, slug, n, entrypoints);
      n := n + 1;
    }
  }

  /** `DiscoverEntrypoints` over the paths the walk of the cleaned directory
      visits. The callback never returns an error, so neither does the walk. */
  method DiscoverEntrypoints(directory: string, walk: seq<WalkEntry>, specs: seq<DiscoverySpec>, fs: FileSystem, slug: Slugger)
    returns (entrypoints: seq<Entrypoint>)
    requires UnderRoot(GoPath.Clean(directory), walk) && AllWellFormed(specs)
    ensures entrypoints == Discovered(GoPath.Clean(directory), walk, specs, fs, slug)
  {
    var root := GoPath.Clean(directory);
    entrypoints := Walk(root, walk, specs, fs, slug);
  }

  // ---------------------------------------------------------------------------
  // What discovery promises

  /** Every discovered entrypoint comes from one visited path outside `.git`
      and from the first spec that decides that path: its directory is the
      path relative to the root, its context the spec's overlaid with the
      captures, its type and name resolved from them, and it passed the
      validity check on the full path. */
  lemma DiscoveredFrom(root: string, walk: seq<WalkEntry>, specs: seq<DiscoverySpec>, fs: FileSystem, slug: Slugger, k: int)
    returns (i: int, j: int)
    requires UnderRoot(root, walk) && AllWellFormed(specs)
    requires 0 <= k < |Discovered(root, walk, specs, fs, slug)|
    ensures 0 <= i < |walk| && 0 <= j < |specs|
    ensures var ep := Discovered(root, walk, specs, fs, slug)[k];
      && ep.directory == RelativePath(root, walk[i].path) && !IsGitPath(ep.directory)
      && Decides(specs[j], ep.directory, walk[i].isDir)
      && (forall j' :: 0 <= j' < j ==> !Decides(specs[j'], ep.directory, walk[i].isDir))
      && ep.context == Overlay(specs[j].context, CapturesOf(specs[j].regex, ep.directory))
      && ep.typ == TypeFor(specs[j].typ, ep.context)
      && ep.name == NameFor(ep.context, ep.directory, slug)
      && IsValidEntrypointOld(fs, walk[i].path, ep.typ)
  {
    var cs := Contributions(root, walk, specs, fs, slug);
    i := CollectedSource(cs, |walk|, k);
    assert cs[i] == PathEntrypoint(root, walk[i], specs, fs, slug);
    j := FirstMatchFrom(specs, RelativePath(root, walk[i].path), walk[i].isDir, 0).value;
  }

  /** Every path outside `.git` that a spec decides and whose candidate is
      valid yields an entrypoint. */
  lemma DiscoveredIncluded(root: string, walk: seq<WalkEntry>, specs: seq<DiscoverySpec>, fs: FileSystem, slug: Slugger, i: int)
    requires UnderRoot(root, walk) && AllWellFormed(specs) && 0 <= i < |walk|
    requires PathEntrypoint(root, walk[i], specs, fs, slug).Some?
    ensures PathEntrypoint(root, walk[i], specs, fs, slug).value in Discovered(root, walk, specs, fs, slug)
  {
    var cs := Contributions(root, walk, specs, fs, slug);
    assert cs[i] == PathEntrypoint(root, walk[i], specs, fs, slug);
    CollectedIncluded(cs, |walk|, i);
  }

  /** The first deciding spec settles a path: when its candidate is invalid
      the path yields nothing, even if a later spec would have produced a
      valid entrypoint. */
  lemma FirstDecidingSpecSettles(root: string, e: WalkEntry, specs: seq<DiscoverySpec>, fs: FileSystem, slug: Slugger, j: int)
    requires |root| <= |e.path| && AllWellFormed(specs) && 0 <= j < |specs|
    requires !IsGitPath(RelativePath(root, e.path)) && Decides(specs[j], RelativePath(root, e.path), e.isDir)
    requires forall j' :: 0 <= j' < j ==> !Decides(specs[j'], RelativePath(root, e.path), e.isDir)
    ensures PathEntrypoint(root, e, specs, fs, slug) ==
      var ep := Candidate(specs[j], RelativePath(root, e.path), slug);
      if IsValidEntrypointOld(fs, e.path, ep.typ) then Some(ep) else None
  {
    assert FirstMatchFrom(specs, RelativePath(root, e.path), e.isDir, 0) == Some(j);
  }
}
