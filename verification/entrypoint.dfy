/** The entrypoint descriptor (entrypoint/entrypoint.go) and the abstract host
    that discovery and the validity checks read: files, directory listings and
    what the decoders make of a file's contents. */
module Entrypoints {
  import opened Base

  /** Go's `EntrypointType` is a string; these are its named values. */
  type EntrypointType = string

  const Kubernetes: EntrypointType := "kubernetes"
  const Kustomize: EntrypointType := "kustomize"
  const Cloudformation: EntrypointType := "cloudformation"
  const Cdk: EntrypointType := "cdk"
  const Terraform: EntrypointType := "terraform"
  const HclV1: EntrypointType := "hclv1"
  const HclV2: EntrypointType := "hclv2"

  /** Free-form context: static configuration merged with regex captures. */
  type Context = map<string, Json>

  datatype Entrypoint = Entrypoint(name: string, directory: string, typ: EntrypointType, context: Context)

  /** The entrypoint as kustomize.go and kustomize_differ.go read it: besides the
      declared fields they use a commit hash (`None` is the zero hash) and a
      reference name. */
  datatype RefEntrypoint = RefEntrypoint(ep: Entrypoint, hash: Option<string>, branch: string)

  /** go-git's `ReferenceName.IsBranch`. */
  predicate IsBranch(ref: string) {
    HasPrefix(ref, "refs/heads/")
  }
}

/** The file system as the validity checks see it. Decoding is foreign code, so a
    file is described by what each decoder yields for its contents. */
module Host {
  import opened Base

  datatype KubeHeader = KubeHeader(apiVersion: string, kind: string)

  /** What one decoder (JSON or YAML) makes of a file: the `{apiVersion, kind}`
      header, the `AWSTemplateFormatVersion` field of a minimal template, and the
      top-level keys of a generic mapping; `None` where decoding fails. */
  datatype Decoded = Decoded(
    kubeHeader: Option<KubeHeader>,
    cfnVersion: Option<string>,
    topLevelKeys: Option<set<string>>)

  datatype Document = Document(asJson: Decoded, asYaml: Decoded)

  /** Readable files with their contents, and readable directories with the
      names of their entries. */
  datatype FileSystem = FileSystem(files: map<string, Document>, dirs: map<string, seq<string>>)

  /** `os.Stat(p)` succeeds. */
  predicate Exists(fs: FileSystem, p: string) {
    p in fs.files || p in fs.dirs
  }
}
