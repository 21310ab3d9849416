/** terraform.go: the Terraform engine. Only the post revision is planned;
    every planned resource change becomes one record, in plan order, typed by
    the first of replace, create, delete and update its actions report.

    `RenderTerraform` returns a nil plan when Terraform reports no changes,
    and `Diff` reads the changes of that nil plan: a revision without
    changes panics. `Diff` models this as written; `DiffNilSafe` reports no
    records for a nil plan. */
module TerraformEngine {
  import opened Base
  import opened TerraformResources
  import opened ResourceDiffs

  /** What the Terraform runs of `RenderTerraform` return: creating the
      runner, `init`, creating the plan file, `plan` (whether there are
      changes) and `show` of the plan file. */
  datatype TfRun = TfRun(
    newTerraform: Option<Error>,
    init: Option<Error>,
    planFile: Option<Error>,
    plan: Result<bool>,
    show: Result<Plan>)

  /** `RenderTerraform`: setup failures become plain messages (the cause is
      printed with `%s`, not wrapped); plan and show failures are returned as
      they are; a plan without changes is a nil plan. */
  function RenderTerraform(run: TfRun): (r: Result<Option<Plan>>)
    ensures r == Success(None) <==>
      run.newTerraform.None? && run.init.None? && run.planFile.None? && run.plan == Success(false)
    ensures r.Success? && r.value.Some? ==> run.show.Success? && r.value.value == run.show.value
    ensures r.Failure? ==> r.error.Msg? || (run.plan.Failure? && r.error == run.plan.error) || (run.show.Failure? && r.error == run.show.error)
    ensures run.newTerraform.Some? ==> r == Failure(Msg("error running NewTerraform: " + ErrorText(run.newTerraform.value)))
  {
    if run.newTerraform.Some? then Failure(Msg("error running NewTerraform: " + ErrorText(run.newTerraform.value)))
    else if run.init.Some? then Failure(Msg("error running Init: " + ErrorText(run.init.value)))
    else if run.planFile.Some? then Failure(Msg("error creating tfplan file: " + ErrorText(run.planFile.value)))
    else match run.plan
      case Failure(e) => Failure(e)
      case Success(changes) =>
        if !changes then Success(None)
        else match run.show
          case Failure(e) => Failure(e)
          case Success(p) => Success(Some(p))
  }

  /** The record type of a change: replace first, then create, delete and
      update; a change reporting none of them is left unset. */
  function Classify(a: Actions): (t: DiffType)
    ensures a.replace ==> t == Replace
    ensures t == Create <==> !a.replace && a.create
    ensures t == Delete <==> !a.replace && !a.create && a.delete
    ensures t == Update <==> !a.replace && !a.create && !a.delete && a.update
    ensures t == Unset <==> !(a.replace || a.create || a.delete || a.update)
  {
    if a.replace then Replace
    else if a.create then Create
    else if a.delete then Delete
    else if a.update then Update
    else Unset
  }

  /** The pre side: the prior state, its sensitivity, and no unknowns. */
  function PreSide(rc: ResourceChange): Resource {
    TerraformRes(TerraformResource(rc.change.before, JNull, rc.change.beforeSensitive, rc))
  }

  /** The post side: the planned state, its unknowns and its sensitivity. */
  function PostSide(rc: ResourceChange): Resource {
    TerraformRes(TerraformResource(rc.change.after, rc.change.afterUnknown, rc.change.afterSensitive, rc))
  }

  /** The record of one planned change: typed by the action priority, both
      sides present and holding the same change, the pre side the prior
      state and its sensitivity with no unknowns, the post side the planned
      state, its unknowns and its sensitivity; the changelog left empty. */
  function RecordOf(rc: ResourceChange): (rd: ResourceDiff)
    ensures rd.typ == Classify(rc.change.actions)
    ensures rd.pre.Some? && rd.pre.value.TerraformRes? && rd.post.Some? && rd.post.value.TerraformRes?
    ensures rd.pre.value.tf.change == rc && rd.post.value.tf.change == rc
    ensures rd.pre.value.tf.resource == rc.change.before && rd.pre.value.tf.sensitive == rc.change.beforeSensitive
    ensures rd.pre.value.tf.unknown == JNull
    ensures rd.post.value.tf.resource == rc.change.after && rd.post.value.tf.sensitive == rc.change.afterSensitive
    ensures rd.post.value.tf.unknown == rc.change.afterUnknown
    ensures rd.diff == []
  {
    ResourceDiff(Classify(rc.change.actions), Some(PreSide(rc)), Some(PostSide(rc)), [])
  }

  /** Both sides of a record carry the same change, so they share identifier,
      name and type; the record is identified by the change's provider and
      address, and named by its address. */
  lemma RecordSidesAgree(rc: ResourceChange)
    ensures var rd := RecordOf(rc);
      && ResourceDiffs.Identifier(rd.pre.value) == ResourceDiffs.Identifier(rd.post.value)
      && ResourceDiffs.Name(rd.pre.value) == ResourceDiffs.Name(rd.post.value)
      && ResourceType(rd) == ResourceDiffs.Type(rd.post.value)
      && DiffName(rd) == rc.address
      && HasPrefix(DiffIdentifier(rd), rc.providerName + "[" + rc.address)
  {
    var rd := RecordOf(rc);
    var pre, post := rd.pre.value.tf, rd.post.value.tf;
    IdentifierOfChange(pre, post);
    var id := TerraformResources.Identifier(post);
    var addr := TerraformResources.Address(post);
    assert id == rc.providerName + "[" + addr + "]";
    assert id[..|rc.providerName + "[" + rc.address|] == rc.providerName + "[" + rc.address by {
      assert HasPrefix(addr, rc.address);
      assert id == (rc.providerName + "[") + addr + "]";
    }
  }

  /** The loop over a plan's resource changes. */
  method DiffPlan(p: Plan) returns (diff: seq<ResourceDiff>)
    ensures diff == PlanRecords(p)
  {
    diff := [];
    var i := 0;
    while i < |p.resourceChanges|
      invariant 0 <= i <= |p.resourceChanges|
      invariant |diff| == i
      invariant forall j :: 0 <= j < i ==> diff[j] == RecordOf(p.resourceChanges[j])
    {
      var rc := p.resourceChanges[i];
      var rd := ResourceDiff(Unset, Some(PreSide(rc)), Some(PostSide(rc)), []);
      if rc.change.actions.replace {
        rd := rd.(typ := Replace);
      } else if rc.change.actions.create {
        rd := rd.(typ := Create);
      } else if rc.change.actions.delete {
        rd := rd.(typ := Delete);
      } else if rc.change.actions.update {
        rd := rd.(typ := Update);
      }
      diff := diff + [rd];
      i := i + 1;
    }
    assert forall j :: 0 <= j < |diff| ==> diff[j] == PlanRecords(p)[j];
  }

  /** The records of a plan: one per resource change, in plan order. */
  function PlanRecords(p: Plan): (ds: seq<ResourceDiff>)
    ensures |ds| == |p.resourceChanges|
  {
    seq(|p.resourceChanges|, i requires 0 <= i < |p.resourceChanges| => RecordOf(p.resourceChanges[i]))
  }

  /** What `tfDiffer.Diff` returns for the post revision's render (the pre
      revision is never rendered): a render error as it is, a panic for a nil
      plan, else the plan's records. */
  function DiffOutcome(render: Result<Option<Plan>>): (r: Outcome<seq<ResourceDiff>>)
    ensures r.Failed? <==> render.Failure?
    ensures r.Failed? ==> r.error == render.error
    ensures r.Panicked? <==> render == Success(None)
  {
    match render
    case Failure(e) => Failed(e)
    case Success(None) => Panicked("nil dereference")
    case Success(Some(p)) => Done(PlanRecords(p))
  }

  /** `tfDiffer.Diff`. */
  method Diff(render: Result<Option<Plan>>) returns (r: Outcome<seq<ResourceDiff>>)
    ensures r == DiffOutcome(render)
  {
    if render.Failure? {
      return Failed(render.error);
    }
    if render.value.None? {
      return Panicked("nil dereference");
    }
    var diff := DiffPlan(render.value.value);
    return Done(diff);
  }

  /** As written, the engine panics exactly when Terraform's setup succeeds
      and the plan reports no changes. */
  lemma NoChangesPanics(run: TfRun)
    ensures DiffOutcome(RenderTerraform(run)).Panicked? <==>
      run.newTerraform.None? && run.init.None? && run.planFile.None? && run.plan == Success(false)
  {
  }

  /** What `Diff` returns once a nil plan is read as a plan without changes. */
  function DiffNilSafeOutcome(render: Result<Option<Plan>>): (r: Result<seq<ResourceDiff>>)
    ensures r.Failure? <==> render.Failure?
    ensures r.Failure? ==> r.error == render.error
  {
    match render
    case Failure(e) => Failure(e)
    case Success(None) => Success([])
    case Success(Some(p)) => Success(PlanRecords(p))
  }

  /** `Diff`, corrected for the nil plan. */
  method DiffNilSafe(render: Result<Option<Plan>>) returns (r: Result<seq<ResourceDiff>>)
    ensures r == DiffNilSafeOutcome(render)
  {
    if render.Failure? {
      return Failure(render.error);
    }
    if render.value.None? {
      return Success([]);
    }
    var diff := DiffPlan(render.value.value);
    return Success(diff);
  }

  /** Corrected, a revision whose plan has no changes yields no records and
      no error, and any other successful render yields what the engine as
      written yields. */
  lemma NoChangesNoRecords(run: TfRun)
    ensures var render := RenderTerraform(run);
      && (render == Success(None) ==> DiffNilSafeOutcome(render) == Success([]))
      && (DiffOutcome(render).Done? ==> DiffNilSafeOutcome(render) == Success(DiffOutcome(render).value))
  {
  }
}
