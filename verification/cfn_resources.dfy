/** The CloudFormation template and resources as cloudformation.go declares
    them, and the `CloudformationResource` wrapper's methods (lines 18-40). */
module CfnResources {
  import opened Base
  import Entrypoints

  /** `cfnResource`: a template resource's `Type`, `Properties` and `Metadata`. */
  datatype CfnRes = CfnRes(typ: string, properties: map<string, Json>, metadata: map<string, Json>)

  /** `CloudformationTemplate`, reduced to the fields the engines read. */
  datatype Template = Template(formatVersion: string, resources: map<string, CfnRes>)

  datatype CloudformationResource = CloudformationResource(resName: string, resource: CfnRes)

  function Type(cr: CloudformationResource): (t: string)
    ensures t == Entrypoints.Cloudformation
  {
    Entrypoints.Cloudformation
  }

  function Name(cr: CloudformationResource): (n: string)
    ensures n == cr.resName
  {
    cr.resName
  }

  /** The resource type followed by the bracketed logical name. */
  function Identifier(cr: CloudformationResource): (id: string)
    ensures HasSuffix(id, "[" + Name(cr) + "]")
    ensures HasPrefix(id, cr.resource.typ + "[")
    ensures |id| == |cr.resource.typ| + |Name(cr)| + 2
  {
    var id := cr.resource.typ + "[" + Name(cr) + "]";
    assert id[|id| - |"[" + Name(cr) + "]"|..] == "[" + Name(cr) + "]";
    assert id[..|cr.resource.typ + "["|] == cr.resource.typ + "[";
    id
  }

  /** The identifier reads back: for resource types without `[`, two
      resources have the same identifier exactly when they have the same type
      and the same logical name. */
  lemma IdentifierReadsBack(a: CloudformationResource, b: CloudformationResource)
    requires '[' !in a.resource.typ && '[' !in b.resource.typ
    ensures Identifier(a) == Identifier(b) <==> a.resource.typ == b.resource.typ && a.resName == b.resName
  {
    if Identifier(a) == Identifier(b) {
      assert a.resource.typ + "[" + (a.resName + "]") == Identifier(a);
      assert b.resource.typ + "[" + (b.resName + "]") == Identifier(b);
      BracketSplit(a.resource.typ, a.resName + "]", b.resource.typ, b.resName + "]");
      assert a.resName == (a.resName + "]")[..|a.resName|];
      assert b.resName == (b.resName + "]")[..|b.resName|];
    }
  }
}

/** cloudformation_resource.go: an alternative `CloudformationResource` that
    holds a goformation resource. Its identifier prints that resource with
    `%s`; the printed form is foreign and given as `printed`. */
module GoformationResources {
  import opened Base
  import Entrypoints

  datatype GoformationResource = GoformationResource(resName: string, printed: string)

  function Type(gr: GoformationResource): (t: string)
    ensures t == Entrypoints.Cloudformation
  {
    Entrypoints.Cloudformation
  }

  function Name(gr: GoformationResource): (n: string)
    ensures n == gr.resName
  {
    gr.resName
  }

  /** The printed resource followed by the bracketed logical name. */
  function Identifier(gr: GoformationResource): (id: string)
    ensures HasPrefix(id, gr.printed + "[")
    ensures HasSuffix(id, "[" + gr.resName + "]")
    ensures |id| == |gr.printed| + |gr.resName| + 2
  {
    var id := gr.printed + "[" + Name(gr) + "]";
    assert id[..|gr.printed + "["|] == gr.printed + "[";
    assert id[|id| - |"[" + gr.resName + "]"|..] == "[" + gr.resName + "]";
    id
  }

  /** The identifier reads back: when neither logical name holds `[`, two
      resources have the same identifier exactly when they print the same
      and have the same logical name, whatever the printed forms contain. */
  lemma IdentifierReadsBack(a: GoformationResource, b: GoformationResource)
    requires '[' !in a.resName && '[' !in b.resName
    ensures Identifier(a) == Identifier(b) <==> a.printed == b.printed && a.resName == b.resName
  {
    if Identifier(a) == Identifier(b) {
      assert a.printed + "[" + (a.resName + "]") == Identifier(a);
      assert b.printed + "[" + (b.resName + "]") == Identifier(b);
      assert '[' !in a.resName + "]" && '[' !in b.resName + "]";
      LastBracketSplit(a.printed, a.resName + "]", b.printed, b.resName + "]");
      assert a.resName == (a.resName + "]")[..|a.resName|];
      assert b.resName == (b.resName + "]")[..|b.resName|];
    }
  }
}
