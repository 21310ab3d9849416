/** terraform_resource.go: a planned change as terraform-json reports it and
    the `TerraformResource` wrapper (terraform.go, lines 35-60, declares the
    same type with the same methods). */
module TerraformResources {
  import opened Base
  import Entrypoints

  /** The results of terraform-json's `Actions.Replace/Create/Delete/Update`. */
  datatype Actions = Actions(replace: bool, create: bool, delete: bool, update: bool)

  datatype Change = Change(
    actions: Actions,
    before: Json,
    after: Json,
    afterUnknown: Json,
    beforeSensitive: Json,
    afterSensitive: Json)

  datatype ResourceChange = ResourceChange(address: string, providerName: string, change: Change)

  /** A plan; `resourceChanges` in plan order. */
  datatype Plan = Plan(resourceChanges: seq<ResourceChange>)

  /** `TerraformResource`: one side of a change. Go's `nil` is `JNull`. */
  datatype TerraformResource = TerraformResource(resource: Json, unknown: Json, sensitive: Json, change: ResourceChange)

  /** `After.(map[string]interface{})["namespace"].(string)`, when both
      assertions succeed. */
  function AfterNamespace(after: Json): (ns: Option<string>)
    ensures ns.Some? <==> after.JObject? && "namespace" in after.fields && after.fields["namespace"].JString?
    ensures ns.Some? ==> ns.value == after.fields["namespace"].s
  {
    if after.JObject? && "namespace" in after.fields && after.fields["namespace"].JString?
    then Some(after.fields["namespace"].s) else None
  }

  function Type(tr: TerraformResource): (t: string)
    ensures t == Entrypoints.Terraform
  {
    Entrypoints.Terraform
  }

  function Name(tr: TerraformResource): (n: string)
    ensures n == tr.change.address
  {
    tr.change.address
  }

  /** The address, followed by `/namespace` when the planned state names one. */
  function Address(tr: TerraformResource): (addr: string)
    ensures AfterNamespace(tr.change.change.after).None? ==> addr == tr.change.address
    ensures AfterNamespace(tr.change.change.after).Some? ==>
      addr == tr.change.address + "/" + AfterNamespace(tr.change.change.after).value
  {
    match AfterNamespace(tr.change.change.after)
    case None => tr.change.address
    case Some(ns) => tr.change.address + "/" + ns
  }

  /** The provider followed by the bracketed address. */
  function Identifier(tr: TerraformResource): (id: string)
    ensures id == tr.change.providerName + "[" + Address(tr) + "]"
  {
    tr.change.providerName + "[" + Address(tr) + "]"
  }

  /** The identifier depends only on the change, never on which side of it
      the wrapper carries; and the name is where its address starts. */
  lemma IdentifierOfChange(a: TerraformResource, b: TerraformResource)
    requires a.change == b.change
    ensures Identifier(a) == Identifier(b) && Name(a) == Name(b)
    ensures HasPrefix(Address(a), Name(a))
  {
    assert Address(a)[..|Name(a)|] == Name(a);
  }
}
