/** cloudformation_differ.go: the older CloudFormation engine. Any extraction
    error ends it; otherwise both templates are dereferenced (a nil one
    panics), creations and deletions carry an empty changelog, and a
    resource present on both sides is diffed with its post version first. */
module CloudformationDifferEngine {
  import opened Base
  import opened CfnResources
  import opened ResourceDiffs
  import opened Extract
  import opened CfnDiffing

  const DiffContext := "unable to diff resources - "
  const RenderContext := "unable to concurrently render cfn resources - "

  /** Visiting the post resource `name`: a name the pre template lacks is a
      creation with an empty changelog; a name it has is diffed post first,
      and is an update when that changelog is non-empty. */
  function NewVisit(codec: CfnCodec, oldRes: map<string, CfnRes>, name: string, res: CfnRes): (v: Visit)
    ensures name !in oldRes ==> v == Success(Some(ResourceDiff(Create, None, Some(Expose(name, res)), [])))
    ensures name in oldRes ==>
      var cl := CfnDiffResource(codec, Some(res), Some(oldRes[name]));
      && (v.Success? <==> cl.Success?)
      && (v.Failure? ==> v.error == Wrap(DiffContext, cl.error))
      && (v.Success? ==> (v.value.Some? <==> |cl.value| > 0))
      && (v.Success? && v.value.Some? ==>
            v.value.value == ResourceDiff(Update, Some(Expose(name, oldRes[name])), Some(Expose(name, res)), cl.value))
  {
    if name !in oldRes then Success(Some(ResourceDiff(Create, None, Some(Expose(name, res)), [])))
    else
      match CfnDiffResource(codec, Some(res), Some(oldRes[name]))
      case Failure(e) => Failure(Wrap(DiffContext, e))
      case Success(cl) =>
        if |cl| > 0 then Success(Some(ResourceDiff(Update, Some(Expose(name, oldRes[name])), Some(Expose(name, res)), cl)))
        else Success(None)
  }

  /** Visiting the pre resource `name`: a name the post template lacks is a
      deletion with an empty changelog; this visit never fails. */
  function OldVisit(newRes: map<string, CfnRes>, name: string, res: CfnRes): (v: Visit)
    ensures v.Success?
    ensures v.value.Some? <==> name !in newRes
    ensures v.value.Some? ==> v.value.value == ResourceDiff(Delete, Some(Expose(name, res)), None, [])
  {
    if name in newRes then Success(None) else Success(Some(ResourceDiff(Delete, Some(Expose(name, res)), None, [])))
  }

  function NewVisitFn(codec: CfnCodec, oldRes: map<string, CfnRes>): VisitFn {
    (name, res) => NewVisit(codec, oldRes, name, res)
  }

  function OldVisitFn(newRes: map<string, CfnRes>): VisitFn {
    (name, res) => OldVisit(newRes, name, res)
  }

  /** The outcome of the two loops on templates that are both present. */
  function LoopsOutcome(codec: CfnCodec, oldT: Template, newT: Template, oldOrder: seq<string>, newOrder: seq<string>): Outcome<seq<ResourceDiff>>
    requires IsOrder(oldOrder, oldT.resources) && IsOrder(newOrder, newT.resources)
  {
    match ScanBoth(NewVisitFn(codec, oldT.resources), OldVisitFn(newT.resources), newT.resources, oldT.resources, newOrder, oldOrder)
    case Failure(e) => Failed(e)
    case Success(diff) => Done(diff)
  }

  /** What `Diff` returns once `extractConcurrent` has returned. */
  function DifferOutcome(codec: CfnCodec, x: Extracted<Template>, oldOrder: seq<string>, newOrder: seq<string>): Outcome<seq<ResourceDiff>>
    requires IsOrder(oldOrder, ResourcesOf(x.pre)) && IsOrder(newOrder, ResourcesOf(x.post))
  {
    if x.err.Some? then Failed(Wrap(RenderContext, x.err.value))
    else if x.pre.None? || x.post.None? then Panicked("nil dereference")
    else LoopsOutcome(codec, x.pre.value, x.post.value, oldOrder, newOrder)
  }

  /** One iteration of the post-resource loop. */
  method VisitNewResource(codec: CfnCodec, oldRes: map<string, CfnRes>, name: string, res: CfnRes) returns (v: Visit)
    ensures v == NewVisit(codec, oldRes, name, res)
  {
    if name !in oldRes {
      return Success(Some(ResourceDiff(Create, None, Some(Expose(name, res)), [])));
    }
    var oldR := oldRes[name];
    var rDiff := CfnDiffResource(codec, Some(res), Some(oldR));
    if rDiff.Failure? {
      return Failure(Wrap(DiffContext, rDiff.error));
    }
    if |rDiff.value| > 0 {
      return Success(Some(ResourceDiff(Update, Some(Expose(name, oldR)), Some(Expose(name, res)), rDiff.value)));
    }
    return Success(None);
  }

  /** The loop over the post template's resources. */
  method ScanNewResources(codec: CfnCodec, oldRes: map<string, CfnRes>, newRes: map<string, CfnRes>, order: seq<string>)
    returns (r: Result<seq<ResourceDiff>>)
    requires IsOrder(order, newRes)
    ensures r == Scan(Visits(NewVisitFn(codec, oldRes), newRes, order), |order|)
  {
    ghost var vs := Visits(NewVisitFn(codec, oldRes), newRes, order);
    var diff: seq<ResourceDiff> := [];
    var i := 0;
    while i < |order|
      invariant 0 <= i <= |order|
      invariant Scan(vs, i) == Success(diff)
    {
      var name := order[i];
      var v := VisitNewResource(codec, oldRes, name, newRes[name]);
      assert vs[i] == v by {
        VisitsAt(NewVisitFn(codec, oldRes), newRes, order, i);
      }
      if v.Failure? {
        ScanStaysFailed(vs, i + 1, |order|);
        return Failure(v.error);
      }
      ScanStep(vs, i, diff);
      diff := diff + OptSeq(v.value);
      i := i + 1;
    }
    r := Success(diff);
  }

  /** The loop over the pre template's resources. */
  method ScanOldResources(newRes: map<string, CfnRes>, oldRes: map<string, CfnRes>, order: seq<string>)
    returns (deletes: seq<ResourceDiff>)
    requires IsOrder(order, oldRes)
    ensures Scan(Visits(OldVisitFn(newRes), oldRes, order), |order|) == Success(deletes)
  {
    ghost var vs := Visits(OldVisitFn(newRes), oldRes, order);
    deletes := [];
    var k := 0;
    while k < |order|
      invariant 0 <= k <= |order|
      invariant Scan(vs, k) == Success(deletes)
    {
      var name := order[k];
      var res := oldRes[name];
      assert vs[k] == OldVisit(newRes, name, res) by {
        VisitsAt(OldVisitFn(newRes), oldRes, order, k);
      }
      ScanStep(vs, k, deletes);
      if name !in newRes {
        deletes := deletes + [ResourceDiff(Delete, Some(Expose(name, res)), None, [])];
      } else {
        assert deletes + [] == deletes;
      }
      k := k + 1;
    }
  }

  /** `cfnDiffer.Diff` over the two renders; `oldOrder` and `newOrder` are
      the orders in which the two `range` loops visit the templates. */
  method Diff(codec: CfnCodec, pre: Result<Option<Template>>, post: Result<Option<Template>>, oldOrder: seq<string>, newOrder: seq<string>)
    returns (r: Outcome<seq<ResourceDiff>>)
    requires IsOrder(oldOrder, ResourcesOf(Value(pre))) && IsOrder(newOrder, ResourcesOf(Value(post)))
    ensures r == DifferOutcome(codec, ExtractRule(pre, post), oldOrder, newOrder)
  {
    var x := ExtractConcurrent(pre, post);
    if x.err.Some? {
      return Failed(Wrap(RenderContext, x.err.value));
    }
    // Ranging over the post template dereferences it, and the first lookup
    // in (or the range over) the pre template dereferences that one.
    if x.post.None? || x.pre.None? {
      return Panicked("nil dereference");
    }
    var oldRes, newRes := x.pre.value.resources, x.post.value.resources;
    var upserts := ScanNewResources(codec, oldRes, newRes, newOrder);
    if upserts.Failure? {
      return Failed(upserts.error);
    }
    var deletes := ScanOldResources(newRes, oldRes, oldOrder);
    return Done(upserts.value + deletes);
  }

  /** A failure of one render only is dropped by `extractConcurrent`, and the
      nil template it leaves behind is then dereferenced: the engine panics
      instead of reporting the failure. */
  lemma OneSidedFailurePanics(codec: CfnCodec, pre: Result<Option<Template>>, post: Result<Option<Template>>, oldOrder: seq<string>, newOrder: seq<string>)
    requires (pre.Failure? && post.Success? && post.value.Some?) || (post.Failure? && pre.Success? && pre.value.Some?)
    requires IsOrder(oldOrder, ResourcesOf(Value(pre))) && IsOrder(newOrder, ResourcesOf(Value(post)))
    ensures DifferOutcome(codec, ExtractRule(pre, post), oldOrder, newOrder).Panicked?
  {
  }

  /** With both templates present, the engine fails exactly when some
      resource present on both sides cannot be diffed; otherwise the records
      are exactly the creations of the post-only resources, the updates of
      the changed shared resources and the deletions of the pre-only
      resources. */
  lemma DifferRecords(codec: CfnCodec, oldT: Template, newT: Template, oldOrder: seq<string>, newOrder: seq<string>)
    requires IsOrder(oldOrder, oldT.resources) && IsOrder(newOrder, newT.resources)
    ensures var r := LoopsOutcome(codec, oldT, newT, oldOrder, newOrder);
      && !r.Panicked?
      && (r.Failed? <==> exists name :: name in newT.resources && name in oldT.resources &&
                          CfnDiffResource(codec, Some(newT.resources[name]), Some(oldT.resources[name])).Failure?)
      && (r.Done? ==> forall rd :: rd in r.value <==>
            || (exists name :: name in newT.resources && NewVisit(codec, oldT.resources, name, newT.resources[name]) == Success(Some(rd)))
            || (exists name :: name in oldT.resources && OldVisit(newT.resources, name, oldT.resources[name]) == Success(Some(rd))))
  {
    var fNew, fOld := NewVisitFn(codec, oldT.resources), OldVisitFn(newT.resources);
    var s := ScanBoth(fNew, fOld, newT.resources, oldT.resources, newOrder, oldOrder);
    BothSucceedsIff(fNew, fOld, newT.resources, oldT.resources, newOrder, oldOrder);
    if s.Failure? {
      var name := BothFailureSource(fNew, fOld, newT.resources, oldT.resources, newOrder, oldOrder);
    } else {
      forall rd | rd in s.value
        ensures || (exists name :: name in newT.resources && NewVisit(codec, oldT.resources, name, newT.resources[name]) == Success(Some(rd)))
                || (exists name :: name in oldT.resources && OldVisit(newT.resources, name, oldT.resources[name]) == Success(Some(rd)))
      {
        var k :| 0 <= k < |s.value| && s.value[k] == rd;
        var name := BothSource(fNew, fOld, newT.resources, oldT.resources, newOrder, oldOrder, k);
      }
      forall rd | (exists name :: name in newT.resources && NewVisit(codec, oldT.resources, name, newT.resources[name]) == Success(Some(rd)))
               || (exists name :: name in oldT.resources && OldVisit(newT.resources, name, oldT.resources[name]) == Success(Some(rd)))
        ensures rd in s.value
      {
        if exists name :: name in newT.resources && NewVisit(codec, oldT.resources, name, newT.resources[name]) == Success(Some(rd)) {
          var name :| name in newT.resources && NewVisit(codec, oldT.resources, name, newT.resources[name]) == Success(Some(rd));
          BothIncluded(fNew, fOld, newT.resources, oldT.resources, newOrder, oldOrder, name);
        } else {
          var name :| name in oldT.resources && OldVisit(newT.resources, name, oldT.resources[name]) == Success(Some(rd));
          BothIncluded(fNew, fOld, newT.resources, oldT.resources, newOrder, oldOrder, name);
        }
      }
    }
  }

  /** The visiting order of Go's map iteration does not matter: whether the
      engine fails, and the set of records, are the same for any two
      enumerations of the templates. */
  lemma DifferOrderIrrelevant(codec: CfnCodec, x: Extracted<Template>,
                              oldOrder1: seq<string>, newOrder1: seq<string>, oldOrder2: seq<string>, newOrder2: seq<string>)
    requires IsOrder(oldOrder1, ResourcesOf(x.pre)) && IsOrder(newOrder1, ResourcesOf(x.post))
    requires IsOrder(oldOrder2, ResourcesOf(x.pre)) && IsOrder(newOrder2, ResourcesOf(x.post))
    ensures var r1, r2 := DifferOutcome(codec, x, oldOrder1, newOrder1), DifferOutcome(codec, x, oldOrder2, newOrder2);
      && (r1.Done? <==> r2.Done?)
      && (r1.Done? && r2.Done? ==> forall rd :: rd in r1.value <==> rd in r2.value)
  {
    if x.err.None? && x.pre.Some? && x.post.Some? {
      var oldRes, newRes := x.pre.value.resources, x.post.value.resources;
      BothOrderIrrelevant(NewVisitFn(codec, oldRes), OldVisitFn(newRes), newRes, oldRes, newOrder1, oldOrder1, newOrder2, oldOrder2);
    }
  }
}
