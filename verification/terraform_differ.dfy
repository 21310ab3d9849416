/** terraform_differ.go: the second copy of `tfDiffer.Diff`. Its body is the
    one of terraform.go, so it is specified by the same outcome; it calls the
    `RenderTerraform` of terraform.go and panics on its nil plan too. */
module TerraformDifferEngine {
  import opened Base
  import opened TerraformResources
  import opened ResourceDiffs
  import TerraformEngine

  /** `tfDiffer.Diff`: a render error is returned as it is, a nil plan
      panics, and otherwise each resource change is one record. */
  method Diff(render: Result<Option<Plan>>) returns (r: Outcome<seq<ResourceDiff>>)
    ensures r == TerraformEngine.DiffOutcome(render)
  {
    match render {
      case Failure(e) =>
        r := Failed(e);
      case Success(plan) =>
        if plan.None? {
          return Panicked("nil dereference");
        }
        var diff := TerraformEngine.DiffPlan(plan.value);
        r := Done(diff);
    }
  }
}
