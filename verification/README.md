# gitops-repo-api: resource diff engines and entrypoint discovery

This project models, in Dafny, the core of `gitops-repo-api`, a service that
compares two revisions of an infrastructure-as-code repository.

An **entrypoint** is a place in a repository that holds resources:
- a Kubernetes manifest directory;
- a kustomization;
- a CloudFormation template;
- a CDK app;
- a Terraform module.

The service **discovers** entrypoints in a checkout, either through regex
discovery specs or through the automatic builder. For each entrypoint it
**renders** the pre and post revision and **diffs** the two resource sets.
The result is a list of `ResourceDiff` records, each tagged create, update,
replace or delete.

The model covers:

- **The two-sided extraction rule** (`extractConcurrent`, module `Extract`).
  - It decides when render errors are surfaced and when they are dropped.
  - The two renders are modelled as sequential steps.
- **The three Kubernetes/kustomize engines** (`kubernetes.go`, `kustomize.go`,
  `kustomize_differ.go`).
  - A resource map is a sequence of objects with unique ids, and
    `GetByCurrentId` is lookup by id.
  - The shared loop body is `ResmapDiff`.
  - Each file keeps its own wrapper and origin rule (`KubernetesEngine`,
    `KustomizeEngine`, `KustomizeDifferEngine`). The two-value and
    four-value `Diff` are kept apart.
  - As in the source, every engine tags a removed resource `Update`, not
    `Delete`.
- **Provenance rewriting** (`kubeEntrypointOrigin`, module `KubeOrigin`).
  - It rests on an implementation of Go's `path.Clean`/`path.Join` lexical
    rules (`GoPath`).
  - There is one origin rule per file version: the ref is always "unknown",
    or it is chosen from the hash, then the branch.
- **The two CloudFormation engines** (`cloudformation.go`,
  `cloudformation_differ.go`).
  - Go map iteration order is a parameter, any enumeration of the keys.
    Results are stated as memberships and counts, and proved independent of
    the order.
  - `cfnDiffResource` is a chain of foreign codec steps given as parameters.
- **The Terraform engine** (`terraform.go` and its copy in
  `terraform_differ.go`).
  - It classifies each planned change by the priority replace > create >
    delete > update.
  - `RenderTerraform` is modelled for its outcomes only.
- **The accessors** (`Type`, `Identifier`, `Name`) of every resource wrapper,
  the `ResourceDiff` accessors, and the type-to-differ dispatch.
- **Regex discovery** (`DiscoverEntrypoints`, module `Discovery`).
  - The directory walk is a given sequence of visited paths.
  - The regex is a value holding its group names and a match function.
  - Files and directory listings are a `FileSystem` value.
- **The validity predicates** of `entrypoint/util.go`, the older ones of
  `entrypoint/discovery.go`, and `IsValidKubeFile`.
- **The automatic builder** (`MakeEntrypoint`, module `Automatic`).

Where the model departs from a literal reading of the source:

- Go panics (nil dereferences) are an explicit `Outcome.Panicked`
  value.
- Where a code path panics or loses data, the model keeps the code as
  written *and* a corrected version (see "## Findings"). The callers use the
  corrected one:
  - `CloudformationEngine.Diff` uses `DoCfnDiff`, and
    `CloudformationEngine.DiffAsWritten` keeps the panicking original;
  - `DiscoverEntrypoints` uses `RelativePath`.
- The repository declares several things twice in one Go package. Each
  file's version is modelled in its own module:
  - `kubeDiffer` three times, `cfnDiffer` and `tfDiffer` twice each;
  - `TerraformResource` and `CloudformationResource` twice each;
  - `isValidEntrypoint` and `regexNamedMatches` in both `entrypoint/util.go`
    and `entrypoint/discovery.go`.
- The two `regexNamedMatches` bodies are identical and are modelled once
  (`EntrypointValidity.RegexNamedMatches`).
- `kustomize.go` and `kustomize_differ.go` read a hash and a branch from the
  entrypoint, and the `Entrypoint` struct has no such fields. The model gives
  those two engines a `RefEntrypoint` that carries them.

## Model

| member | source | states |
|---|---|---|
| ResourceDiffs.Tag | resource/diff.go:13-20 | each diff type has its JSON tag; only the unset type has the empty tag |
| ResourceDiffs.TagInjective | resource/diff.go:15-20 | distinct diff types never share a tag |
| ResourceDiffs.TypeNamesWrapper | resource/diff.go:22-26 | two resources report the same `Type()` exactly when they are the same kind of wrapper |
| ResourceDiffs.DiffIdentifier | resource/diff.go:58-67 | the post side's identifier if there is one, else the pre side's, else "unknown" |
| ResourceDiffs.DiffName | resource/diff.go:69-78 | the same post-then-pre-then-"unknown" precedence for the name |
| ResourceDiffs.DiffString | resource/diff.go:80-82 | the printed form is exactly the record's identifier followed by its bracketed name: that prefix, that suffix, and no character in between |
| ResourceDiffs.DiffStringReadsBack | resource/diff.go:80-82 | when the names hold no `[`, two records print the same exactly when their identifiers and names agree |
| ResourceDiffs.ResourceType | resource/diff.go:37-43 | the JSON `resourceType` prefers the pre side's type over the post side's, else "" |
| ResourceDiffs.SidesOfARecord | resource/diff.go:37-78 | for a two-sided record the identifier and name come from the post side, and `resourceType` matches the post side's type exactly when both sides have the same type |
| ResourceDiffs.EntrypointDiffer | resource/diff.go:88-103 | a differ exists exactly for kubernetes, kustomize, terraform, cloudformation and cdk, and it handles that type; any other type gets the "entrypoint type %q is not supported" error with the type written as a Go string literal |
| ResourceDiffs.QuoteRoundTrip | resource/diff.go:101 | the `%q` form of any type reads back, with `strconv.Unquote`'s rules, as exactly that type |
| ResourceDiffs.QuoteEscapesQuote | resource/diff.go:101 | a quote inside the type is escaped: `a"b` is written `"a\"b"` |
| ResourceDiffs.DifferRoundTrip | resource/diff.go:88-103 | dispatching on the type a differ handles returns that differ |
| Base.JoinErr | resource/kubernetes.go:173 | `errors.Join` of the accumulated error and a new one keeps at most two errors, the new one last |
| Base.JoinAllRoundTrip | resource/kubernetes.go:139-175 | the error built by repeatedly joining a list of errors gives back exactly that list, in order |
| Base.TrimLeadingSlashes | entrypoint/discovery.go:30 | `strings.TrimLeft(s, "/")`: a suffix of `s` without a leading slash, and what was cut is all slashes |
| Extract.Failures | resource/util.go:20-40 | one wrapped error per failing render, pre first |
| Extract.ExtractRule | resource/util.go:43-47 | an error is returned exactly when a render failed and neither side has a value, and then both sides are nil and the error joins the failures; otherwise both values are returned unchanged and the error is nil |
| Extract.OneSidedFailureDropped | resource/util.go:43-47 | a pre failure beside a successful post render is dropped silently, leaving the pre side nil |
| Extract.ExtractConcurrent | resource/util.go:13-48 | the two renders, run one after the other, produce what the join rule prescribes |
| KubeFiles.IsValidKubeFile | util/kubernetes.go:15-30 | a manifest exactly when the name ends in `.yaml`/`.yml`, the file is readable and decodes, and both `apiVersion` and `kind` are non-empty |
| EntrypointValidity.IsValidCloudformation | entrypoint/util.go:14-44 | valid exactly when the file is readable, decodes (JSON when the path mentions `.json`, else YAML) and has a top-level `Resources` key |
| EntrypointValidity.IsValidKubernetes | entrypoint/util.go:60-73 | the scan of the listing finds a manifest exactly when the directory is readable and one of its entries is a valid kube file |
| EntrypointValidity.IsValidTerraform | entrypoint/util.go:75-88 | the scan finds a `.tf` entry exactly when the directory is readable and one entry name ends in `.tf` |
| EntrypointValidity.IsValidEntrypoint | entrypoint/util.go:90-106 | the dispatch: each type goes to its own check, hclv1 goes to the CDK check, and hclv2 and unknown types are never valid |
| EntrypointValidity.CapturesUpToKeys | entrypoint/util.go:117-121 | a key is captured exactly when it is a non-empty group name at index 1 or higher, and it maps to the submatch of the last group with that name |
| EntrypointValidity.RegexNamedMatches | entrypoint/util.go:108-124 | no map when the regex does not match; otherwise the map of named captures |
| Discovery.IsValidEntrypointOld | entrypoint/discovery.go:98-124 | the older check: a CloudFormation file needs a non-empty template format version, a CDK app needs `cdk.json`, Terraform and kustomize are always valid, and every other type never is |
| Discovery.OldValidityAgainstNew | entrypoint/discovery.go:98-124 | compared with `entrypoint/util.go`, the older check accepts every Terraform and kustomize path the newer one accepts, agrees on CDK, and never accepts Kubernetes |
| Discovery.RealPath | entrypoint/discovery.go:30 | the `realpath` as written: a suffix of the visited path, with no leading slash, and never longer than what follows the root's length |
| Discovery.RealPathUnderDotAsWritten | entrypoint/discovery.go:27-30 | under the root "." the computed `realpath` loses the first character of the relative path |
| Discovery.DotWalkExampleAsWritten | entrypoint/discovery.go:27-30 | walking "." visits "app", whose `realpath` comes out as "pp" |
| Discovery.RelativePathOfWalk | entrypoint/discovery.go:27-30 | the corrected relative path: for every cleaned root (including "." and "/") the visited path `root/rel` yields `rel`, and the root itself yields "" |
| Discovery.FirstMatchFrom | entrypoint/discovery.go:34-38 | the first spec that both applies to the entry (directories always, files only with `Files`) and matches the path; no earlier spec does both |
| Discovery.Overlay | entrypoint/discovery.go:39-45 | the context holds the keys of both maps; a capture wins over a fixed entry, and other fixed entries are kept |
| Discovery.OverlayUnique | entrypoint/discovery.go:39-45 | those three facts determine the context |
| Discovery.TypeFor | entrypoint/discovery.go:59-64 | the spec's type when it is set, else the context's string `type`, else empty |
| Discovery.CopyMap | entrypoint/automatic.go:87-93 | the copy has exactly the keys and values of the original |
| Discovery.OverlayCaptures | entrypoint/discovery.go:39-45 | the two copy loops build the overlaid context |
| Discovery.BuildCandidate | entrypoint/discovery.go:39-76 | the candidate entrypoint from the spec, the path and the captures |
| Discovery.FirstMatch | entrypoint/discovery.go:34-38 | the spec loop stops at the first deciding spec and returns its captures |
| Discovery.VisitPath | entrypoint/discovery.go:29-85 | the walk callback for one path contributes what the discovery rule prescribes |
| Discovery.Walk | entrypoint/discovery.go:29-85 | the walk collects the contributions of the visited paths, in walk order |
| Discovery.DiscoverEntrypoints | entrypoint/discovery.go:26-92 | the entrypoints collected over the walk of the cleaned directory |
| Discovery.DiscoveredFrom | entrypoint/discovery.go:29-80 | every entrypoint comes from a visited path outside `.git` and from the first deciding spec, with the overlaid context, the resolved type and name, the relative directory, and a passed validity check on the full path |
| Discovery.DiscoveredIncluded | entrypoint/discovery.go:78 | every path with a valid candidate contributes its entrypoint |
| Discovery.FirstDecidingSpecSettles | entrypoint/discovery.go:66-80 | the first deciding spec alone settles the path: its candidate is appended if valid, the path is skipped otherwise, and later specs are never tried |
| Automatic.AutomaticDiscoveryOf | entrypoint/automatic.go:9-29 | the builder keeps the given context and knows only the seven entrypoint types |
| Automatic.FirstAcceptable | entrypoint/automatic.go:31-84 | the first type in priority order that is enabled, fits file-versus-directory, and passes its check |
| Automatic.MakeEntrypointSpec | entrypoint/automatic.go:31-85 | nothing when no type accepts `basedir/repoPath`; otherwise an entrypoint named by the slug of `repoPath`, rooted at `repoPath`, with the builder's context and an enabled, valid type with no acceptable type before it |
| Automatic.MakeEntrypoint | entrypoint/automatic.go:31-85 | the if-chain returns what that specification gives |
| Automatic.DefaultsEnablePriority | entrypoint/automatic.go:21-29 | the defaults enable exactly the five tried types |
| Automatic.OnlyEnabledTypes | entrypoint/automatic.go:31-84 | a produced type is enabled and one of the five; with the defaults it is never hclv1 or hclv2 |
| Automatic.EarlierTypeWins | entrypoint/automatic.go:33-62 | a directory that is a CDK app becomes a CDK entrypoint, and one with a manifest (and not a CDK app) becomes a Kubernetes entrypoint |
| KubernetesResources.Type | resource/kubernetes.go:85-87 | always "kubernetes" |
| KubernetesResources.Name | resource/kubernetes.go:93-101 | the name, or `namespace/name` when the namespace is set |
| KubernetesResources.Identifier | resource/kubernetes.go:89-91 | the formatted GVK followed by the bracketed name |
| KustomizeResources.Type | resource/kustomize_resource.go:15-17 | always "kustomize" |
| KustomizeResources.Name | resource/kustomize_resource.go:22-30 | the name, or `namespace/name` when the namespace is set |
| KustomizeResources.Identifier | resource/kustomize_resource.go:18-20 | the formatted GVK followed by the bracketed name |
| CfnResources.Type | resource/cloudformation.go:30-32 | always "cloudformation" |
| CfnResources.Name | resource/cloudformation.go:38-40 | the logical name |
| CfnResources.Identifier | resource/cloudformation.go:34-36 | exactly the resource type followed by the bracketed logical name: that prefix, that suffix, and no character in between |
| CfnResources.IdentifierReadsBack | resource/cloudformation.go:34-40 | for resource types without `[`, two resources share an identifier exactly when they share type and logical name |
| GoformationResources.Type | resource/cloudformation_resource.go:15-17 | always "cloudformation" |
| GoformationResources.Name | resource/cloudformation_resource.go:23-25 | the logical name |
| GoformationResources.Identifier | resource/cloudformation_resource.go:19-21 | exactly the printed resource followed by the bracketed logical name: that prefix, that suffix, and no character in between |
| GoformationResources.IdentifierReadsBack | resource/cloudformation_resource.go:19-25 | for logical names without `[`, two resources share an identifier exactly when they print the same and share the logical name |
| TerraformResources.AfterNamespace | resource/terraform_resource.go:23-27 | a namespace exactly when the planned state is a mapping whose `namespace` is a string |
| TerraformResources.Type | resource/terraform_resource.go:17-19 | always "terraform" |
| TerraformResources.Name | resource/terraform_resource.go:32-34 | the change's address |
| TerraformResources.Address | resource/terraform_resource.go:21-27 | the address, extended by `/namespace` exactly when the planned state names one |
| TerraformResources.Identifier | resource/terraform_resource.go:20-30 | the provider name followed by the bracketed address |
| TerraformResources.IdentifierOfChange | resource/terraform.go:46-60 | two wrappers of the same change share identifier and name, and the address starts with the name |
| KubeObjects.LookupAbsent | resource/kubernetes.go:151-152 | in a map with unique ids, `GetByCurrentId` fails exactly when the id is absent |
| KubeObjects.LookupPresent | resource/kubernetes.go:179-188 | in a map with unique ids, looking up a resource's id returns that resource |
| KubeObjects.CleanResmap | resource/kubernetes.go:235-249 | a cleaned copy, when cleaning succeeds, has as many resources as the original |
| KubeObjects.CleanKeepsIds | resource/kubernetes.go:235-249 | with id-preserving annotation stripping, the cleaned copy lists the same ids in the same order |
| KubeObjects.CleanedLookup | resource/kubernetes.go:153-156 | looking up a raw resource's id in the cleaned copy returns its clean counterpart, so the "unable to get cleaned copy" errors cannot occur |
| KubeObjects.QualifiedNameInjective | resource/kubernetes.go:93-101 | for slash-free names, `Name()` determines namespace and name |
| KubeObjects.IdentifierDeterminesId | resource/kubernetes.go:89-101 | for slash-free names and bracket-free GVKs, two resources have the same identifier exactly when they have the same id |
| GoPath.Abs | resource/kubernetes.go:263 | `filepath.Abs` of a rooted path is that path cleaned by Go's `path.Clean` rules, which is rooted and a fixed point of cleaning |
| GoPath.CleanIdempotentRooted | resource/kubernetes.go:263 | cleaning a rooted path twice is cleaning it once |
| GoPath.CleanRootedTail | resource/kubernetes.go:263-266 | a cleaned rooted path, without its slash, has no leading slash and no "." or ".." element |
| GoPath.JoinUnderRoot | resource/kubernetes.go:263 | joining "/", a plain directory and a plain path is their slash-separated concatenation |
| GoPath.JoinEndsWithName | resource/kustomize.go:52-54 | joining a plain file name onto any directory gives a path ending with that name |
| KubeOrigin.Reroot | resource/kubernetes.go:261-268 | the re-rooted origin path has no leading slash and no "." or ".." element, so it never climbs above the repository root |
| KubeOrigin.RerootJoined | resource/kubernetes.go:263-266 | the joined path is rooted, and the result is that path, cleaned, without its leading slash |
| KubeOrigin.RerootPlain | resource/kubernetes.go:263-266 | for plain segments the result is `directory/path` |
| KubeOrigin.RefName | resource/kustomize.go:251-259 | the hash when it is non-zero, else the branch when it is a branch, else "unknown" |
| KubeOrigin.RebasePath | resource/kubernetes.go:259-268 | repo and ref untouched; an empty path stays empty, and any other path is re-rooted under the entrypoint directory |
| KubeOrigin.OriginByRef | resource/kustomize.go:232-268 | a nil origin becomes the entrypoint directory with ref "Unknown"; otherwise the path is re-rooted, and an empty repo is replaced by the repository URL with the chosen ref |
| KubeOrigin.OriginUnknownRef | resource/kubernetes.go:251-278 | the same, except that an empty repo always gets ref "unknown" |
| KubeOrigin.OriginVersionsAgree | resource/kustomize.go:232-268 | the two versions differ only in the ref, and agree entirely when there is neither hash nor branch |
| ResmapDiff.UpsertAt | resource/kubernetes.go:141-203 | the visit of one new resource: either a record (create with no pre side and empty changelog, or update with both sides and a non-empty changelog, its post side the clean copy) or an error, never both |
| ResmapDiff.RemovalAt | resource/kubernetes.go:208-229 | an old resource absent from new gives a removal record, tagged update, with the clean copy as pre side, no post side and an empty changelog; a present one gives nothing |
| ResmapDiff.JoinedErrorsAll | resource/kubernetes.go:171-175 | the error accumulated by the loop is the join of the visits' errors in order |
| ResmapDiff.AllWrappedAt | resource/kubernetes.go:140-148 | `allNew`/`allOld` wrap every raw resource in map order |
| ResmapDiff.DiffMaps | resource/kubernetes.go:116-137 | no diff exactly when cleaning either map fails, and then the error is wrapped; otherwise `allOld`/`allNew` list every raw resource of each map |
| ResmapDiff.VisitOne | resource/kubernetes.go:141-203 | the loop body for one new resource performs its visit |
| ResmapDiff.VisitNew | resource/kubernetes.go:139-204 | the first loop collects the visits' records, joins their errors and wraps every new resource |
| ResmapDiff.VisitRemoval | resource/kubernetes.go:214-229 | the loop body for one old resource performs its removal check |
| ResmapDiff.VisitOld | resource/kubernetes.go:206-230 | the second loop appends the removals in old's order and wraps every old resource |
| ResmapDiff.DoResmapDiff | resource/kubernetes.go:116-233 | `doResmapDiff` returns what the specification of the two loops gives |
| ResmapDiff.CreateIffAbsent | resource/kubernetes.go:151-169 | a new resource gives a create record, and nothing else, exactly when its id is absent from old |
| ResmapDiff.UpdateIffChanged | resource/kubernetes.go:171-203 | a matched pair gives an update record carrying both clean sides and the changelog exactly when the changelog is non-empty, and an error exactly when the structural diff fails |
| ResmapDiff.RemovalIffAbsent | resource/kubernetes.go:214-229 | an old resource gives a removal record exactly when its id is absent from new |
| ResmapDiff.RecordsOrder | resource/kubernetes.go:125-232 | creations and updates come first, and every record without a post side is a removal tagged update with an empty changelog |
| ResmapDiff.VisitReported | resource/kubernetes.go:139-204 | every record and every error of a visit reaches the result, so a failing pair never aborts the loop |
| ResmapDiff.IdenticalMapsNoDiff | resource/kubernetes.go:116-233 | diffing a map against itself yields no record and no error |
| ResmapDiff.EmptyNewRemovesAll | resource/kubernetes.go:206-230 | against an empty new map every old resource is a removal, in order, and nothing fails |
| ResmapDiff.EmptyOldCreatesAll | resource/kubernetes.go:139-169 | against an empty old map every new resource is a creation, in order, and nothing fails |
| ResmapDiff.NilNewMapRemovesAll | resource/kubernetes.go:121-123 | a nil post map is an empty one: never an error, and every old resource is removed |
| ResmapDiff.NilOldMapCreatesAll | resource/kubernetes.go:117-119 | a nil pre map is an empty one: never an error, and every new resource is created |
| ResmapDiff.DiffMapsErrors | resource/kubernetes.go:171-175 | the returned error, read back, is exactly the list of structural-diff failures in visiting order |
| KubeExtraction.RenderAndDiff | resource/kubernetes.go:105-114 | the extraction rule followed by the resource-map diff |
| KubeExtraction.BothRendersFail | resource/util.go:20-45 | two failed renders give no diff and the joined pre and post errors, each wrapped |
| KubeExtraction.PreFailureCreatesAll | resource/util.go:43-47 | a failed pre render beside a post render reports every post resource as created, with no error |
| KubeExtraction.PostFailureRemovesAll | resource/util.go:43-47 | a failed post render beside a pre render reports every pre resource as removed, with no error |
| KubeExtraction.NilRenderIsEmpty | resource/kubernetes.go:117-123 | beside a successful render, a nil render acts exactly like an empty one |
| KubeExtraction.NilRenderBesideFailure | resource/util.go:43-45 | a nil render beside a failure surfaces the error, while an empty one does not |
| KubernetesEngine.KubeWrapping | resource/kubernetes.go:145-148 | `KubernetesResource` wrappers, with the origin rule whose ref is always "unknown" |
| KubernetesEngine.Diff | resource/kubernetes.go:105-114 | the engine's outcome with that wrapping |
| KustomizeDifferEngine.KustomizeWrapping | resource/kustomize_differ.go:76-82 | `KustomizeResource` wrappers, with the origin rule that chooses the ref from hash or branch |
| KustomizeDifferEngine.Diff | resource/kustomize_differ.go:21-146 | the diff and the joined error of the shared outcome; no resource lists |
| KustomizeEngine.KustomizationPath | resource/kustomize.go:51-54 | always names a kustomization file; it is the argument itself when that already does, and otherwise `kustomization.yaml` joined onto the argument by Go's `path.Join` |
| KustomizeEngine.KustomizationInDir | resource/kustomize.go:51-54 | for a clean directory other than "." and "/", the kustomization file is `directory/kustomization.yaml` |
| KustomizeEngine.RenderKustomize | resource/kustomize.go:47-83 | no resources and no error exactly when the kustomization file is unreadable; a failing step gives its wrapped error, and a build gives its resource map |
| KustomizeEngine.Diff | resource/kustomize.go:88-214 | the outcome for the two renders with the kustomize wrapping, including `allOld`/`allNew` |
| KustomizeEngine.NewKustomizationCreatesAll | resource/kustomize.go:59-62 | when the pre revision has no kustomization file, every post resource is created and nothing fails |
| CfnDiffing.CfnDiffResource | resource/cloudformation.go:181-200 | a changelog exactly when both encodings, both decodings and the structural diff succeed, and then it is the structural diff of the decoded pair; otherwise the first failing encoding or decoding returns its own wrapped error, and a failing structural diff returns its error unwrapped |
| CfnDiffing.AllExposedMembers | resource/cloudformation.go:101-104 | the resource list has one entry per template resource, and holds exactly the wrapped resources of the template |
| CloudformationDifferEngine.NewVisit | resource/cloudformation_differ.go:26-60 | a name missing from pre is a create with an empty changelog; a name present is diffed post first, failing with the wrapped error, and is an update exactly when that changelog is non-empty |
| CloudformationDifferEngine.OldVisit | resource/cloudformation_differ.go:62-75 | a pre name missing from post is a delete with no post side and an empty changelog; a present one gives nothing |
| CloudformationDifferEngine.VisitNewResource | resource/cloudformation_differ.go:26-60 | the body of the first loop performs the visit |
| CloudformationDifferEngine.ScanNewResources | resource/cloudformation_differ.go:26-60 | the first loop scans the post template in the given order and stops at the first failure |
| CloudformationDifferEngine.ScanOldResources | resource/cloudformation_differ.go:62-75 | the second loop never fails and collects the deletes |
| CloudformationDifferEngine.Diff | resource/cloudformation_differ.go:16-78 | an extraction error is returned wrapped; otherwise both templates are read (a nil one panics) and the two loops run |
| CloudformationDifferEngine.OneSidedFailurePanics | resource/cloudformation_differ.go:18-27 | when exactly one render fails the extraction leaves that template nil and the engine panics |
| CloudformationDifferEngine.DifferRecords | resource/cloudformation_differ.go:25-77 | never a panic on two templates; a failure exactly when some shared name fails to diff; otherwise the records are exactly the visits' records |
| CloudformationDifferEngine.DifferOrderIrrelevant | resource/cloudformation_differ.go:26-75 | whether the diff succeeds, and which records it holds, does not depend on map iteration order |
| CloudformationEngine.NewVisit | resource/cloudformation.go:98-150 | a name missing from pre (or a nil pre) is a create carrying the diff from nothing; a shared name is an update exactly when its changelog is non-empty; a diff error is wrapped |
| CloudformationEngine.OldVisit | resource/cloudformation.go:159-174 | a pre name missing from post is a delete carrying the diff to nothing; a present one gives nothing |
| CloudformationEngine.VisitNewResource | resource/cloudformation.go:99-150 | the body of the first loop performs the visit |
| CloudformationEngine.VisitOldResource | resource/cloudformation.go:159-174 | the corrected body of the second loop performs the visit |
| CloudformationEngine.ScanNewResources | resource/cloudformation.go:98-151 | the first loop scans the post template, stops at the first failure, and lists every post resource |
| CloudformationEngine.ScanOldResources | resource/cloudformation.go:153-176 | the corrected second loop scans the pre template and lists every pre resource |
| CloudformationEngine.DoCfnDiff | resource/cloudformation.go:93-179 | the corrected `doCfnDiff` returns what its specification gives |
| CloudformationEngine.ScanOldResourcesAsWritten | resource/cloudformation.go:153-176 | the second loop as written panics on a nil post template with pre resources, and its `allOld` ends as `allNew` plus the last pre resource only |
| CloudformationEngine.DoCfnDiffAsWritten | resource/cloudformation.go:93-179 | `doCfnDiff` as written returns what its as-written specification gives |
| CloudformationEngine.Diff | resource/cloudformation.go:80-91 | an error only when rendering failed and both templates are nil; otherwise the corrected `doCfnDiff` |
| CloudformationEngine.DiffAsWritten | resource/cloudformation.go:80-91 | `cfnDiffer.Diff` as written: the same extraction gate followed by `doCfnDiff` as written |
| CloudformationEngine.PostFailurePanicsAsWritten | resource/cloudformation.go:86-159 | as written, a failed post render beside a pre template with resources passes the gate and panics, where the corrected `Diff` is the corrected diff against a nil post template |
| CloudformationEngine.CfnRecordsByName | resource/cloudformation.go:98-178 | success exactly when every visit succeeds, and then every visit's record is in the result |
| CloudformationEngine.CfnRecordSource | resource/cloudformation.go:98-178 | every record is the record of a visit of a post or pre name |
| CloudformationEngine.CfnFailureSource | resource/cloudformation.go:115-117 | a failure is the wrapped error of a visit |
| CloudformationEngine.CfnOrderIrrelevant | resource/cloudformation.go:98-178 | success, the records and both resource lists do not depend on map iteration order |
| CloudformationEngine.NilPostPanicsAsWritten | resource/cloudformation.go:153-159 | as written, a nil post template beside a pre template with resources panics |
| CloudformationEngine.NilPostSucceedsIff | resource/cloudformation.go:153-174 | corrected: with a nil post template the diff succeeds exactly when every pre resource diffs against nothing |
| CloudformationEngine.NilPostRecordCount | resource/cloudformation.go:153-174 | corrected: with a nil post template there is one record per pre resource |
| CloudformationEngine.NilPostDeletesAll | resource/cloudformation.go:153-174 | corrected: with a nil post template every pre resource is deleted |
| CloudformationEngine.AllOldDropsResourcesAsWritten | resource/cloudformation.go:155-158 | as written, with two or more pre resources and an empty post template, the first pre resource visited is missing from `allOld` |
| CloudformationEngine.AllResourcesListed | resource/cloudformation.go:101-104 | corrected: `allOld` and `allNew` hold exactly the wrapped resources of each template, one entry per resource |
| TerraformEngine.RenderTerraform | resource/terraform.go:64-97 | a nil plan and no error exactly when setup succeeds and `plan` reports no changes; setup failures become plain messages; plan and show failures are returned as they are |
| TerraformEngine.Classify | resource/terraform.go:124-132 | the priority replace > create > delete > update, and the empty tag when no action holds |
| TerraformEngine.RecordOf | resource/terraform.go:108-122 | the record of a change: the pre side holds Before and BeforeSensitive and no unknowns, the post side holds After, AfterUnknown and AfterSensitive, both hold the same change, and the changelog is empty |
| TerraformEngine.RecordSidesAgree | resource/terraform.go:108-122 | both sides share identifier and name; the record is named by the address and identified by provider and address |
| TerraformEngine.DiffPlan | resource/terraform.go:107-135 | one record per planned change, in plan order |
| TerraformEngine.DiffOutcome | resource/terraform.go:102-138 | a render error is returned as it is, and a panic happens exactly on a nil plan; only the post directory is rendered |
| TerraformEngine.Diff | resource/terraform.go:102-138 | the loop returns that outcome |
| TerraformEngine.NoChangesPanics | resource/terraform.go:86-88 | as written, the engine panics exactly when the plan reports no changes |
| TerraformEngine.DiffNilSafeOutcome | resource/terraform.go:102-106 | corrected: a render error is returned as it is, and nothing else fails |
| TerraformEngine.DiffNilSafe | resource/terraform.go:102-138 | the corrected loop, which treats a nil plan as having no changes |
| TerraformEngine.NoChangesNoRecords | resource/terraform.go:86-88 | corrected: no changes give no records, and wherever the original succeeds the corrected one returns the same records |
| TerraformDifferEngine.Diff | resource/terraform_differ.go:58-94 | the second copy returns the same outcome as the first |

## Left out

- Renderers: `RenderKubernetes`, `RenderCloudformation`, the CDK synth and the
  krusty build are foreign tools and I/O. Their results are inputs.
  - The kustomize renderer is modelled for its path choice and its error
    steps.
  - `RenderTerraform` is modelled for its outcomes only.
- Concurrency: `extractConcurrent` runs its two renders one after the other
  (pre first). Its data race on the shared error is not modelled.
- Go map iteration order is an explicit parameter, any enumeration of the
  keys. The resource maps of kustomize are sequences in their own order.
- Foreign code becomes parameters:
  - `slug.Make`;
  - `regexp` (a value with group names and a match function);
  - the r3labs structural diff and the YAML/JSON codecs;
  - kustomize's annotation stripping (assumed to preserve ids);
  - the GVK formatting and `GetOrigin`;
  - `kubeDiffResmap`;
  - the encoders inside `cfnDiffResource`.
- `filepath.WalkDir`:
  - the walk is a given sequence of visited paths under the root;
  - its error callbacks are not modelled;
  - `DiscoverEntrypoints` never returns an error.
- File contents are what each decoder makes of a file. `os.Stat` and
  `os.ReadDir` are lookups in a `FileSystem` value.
- `fmt.Printf` output is not modelled.
- Automatic.MakeEntrypoint: the source also returns an error, which is always
  nil, so the model drops it.
- Discovery.CopyMap: states value equality; Go's fresh map (no aliasing) is
  not captured by values.
- KustomizeDifferEngine.Diff: the "invalid resmap received" branches are not
  modelled. A render always yields a resource map, so they cannot occur.
- ResmapDiff.DoResmapDiff: the "unable to get cleaned copy" branches are
  proved unreachable (KubeObjects.CleanedLookup), so no path leads to them.
- KubeOrigin.Reroot: the error branch of `filepath.Abs` is not modelled,
  because on a rooted path it cannot fail.
- The `%W` verb in those unreachable messages is not modelled.
- `init` of resource/terraform.go, which installs Terraform in the background,
  is not modelled.
- The CDK engine (`resource/cdk.go`) is not part of this model. Only its
  dispatch is.
- Discovery.RealPath: the model follows the code as written, which cuts
  `len(directory)` bytes. The corrected `RelativePath` is proved correct by
  Discovery.RelativePathOfWalk.
- Discovery.VisitPath: uses the corrected `RelativePath`, so under the root
  "." it does not reproduce the first character the code as written drops.
- Discovery.Walk: collects through Discovery.VisitPath, with the same
  correction under the root ".".
- Discovery.DiscoverEntrypoints: walks through Discovery.Walk, with the same
  correction under the root ".".
- CloudformationEngine.Diff: it composes the corrected `DoCfnDiff`, so it
  never panics. The code as written panics when the post render fails beside
  a pre template with resources; CloudformationEngine.DiffAsWritten keeps
  that behaviour.
- ResourceDiffs.EntrypointDiffer: `%q` escaping is modelled for ASCII only.
  A character at or above U+0080 that Go's `unicode.IsPrint` rejects (such as
  U+00A0) is written as it is, where Go writes a `\u` escape. The Unicode
  tables are not modelled.

## Findings

| source | as written | input that shows it | evidently intended | confidence | as-written member | corrected member |
|---|---|---|---|---|---|---|
| resource/cloudformation.go:159 | the delete loop reads `new.Resources` even when the post template is nil | post render fails while the pre render succeeds: the extraction drops the error and passes a nil post template with pre resources | every pre resource reported as deleted | not executed | CloudformationEngine.NilPostPanicsAsWritten | CloudformationEngine.NilPostDeletesAll |
| resource/cloudformation.go:155 | `allOld = append(allNew, …)` rebuilds `allOld` from `allNew` on every iteration | pre template with resources A and B visited in that order, empty post template: `allOld` is `[B]` | `allOld` lists every pre resource | not executed | CloudformationEngine.AllOldDropsResourcesAsWritten | CloudformationEngine.AllResourcesListed |
| resource/terraform.go:86-88, 108 | `RenderTerraform` returns a nil plan when there are no changes, and `Diff` ranges over that plan's changes | a module whose plan reports no changes | an empty diff | not executed | TerraformEngine.NoChangesPanics | TerraformEngine.NoChangesNoRecords |
| entrypoint/discovery.go:30 | `realpath` cuts `len(directory)` bytes from the walked path, but a walk of "." yields paths without the "./" prefix | `DiscoverEntrypoints(".", …)` visiting "app": `realpath` is "pp" | "app", the path relative to the root | not executed | Discovery.DotWalkExampleAsWritten | Discovery.RelativePathOfWalk |
