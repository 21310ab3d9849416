/** util/kubernetes.go: deciding whether a file is a Kubernetes manifest. */
module KubeFiles {
  import opened Base
  import opened Host

  /** `IsValidKubeFile`: a `.yaml`/`.yml` file that can be read, decodes as YAML
      and names both an `apiVersion` and a `kind`. */
  function IsValidKubeFile(fs: FileSystem, file: string): (valid: bool)
    ensures valid <==>
      && (HasSuffix(file, ".yaml") || HasSuffix(file, ".yml"))
      && file in fs.files
      && fs.files[file].asYaml.kubeHeader.Some?
      && fs.files[file].asYaml.kubeHeader.value.apiVersion != ""
      && fs.files[file].asYaml.kubeHeader.value.kind != ""
  {
    if HasSuffix(file, ".yaml") || HasSuffix(file, ".yml") then
      if file !in fs.files then false
      else
        match fs.files[file].asYaml.kubeHeader
        case None => false
        case Some(header) => header.apiVersion != "" && header.kind != ""
    else false
  }
}
