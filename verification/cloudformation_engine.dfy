/** cloudformation.go: the CloudFormation engine. Both templates are rendered
    by `extractConcurrent`, then `doCfnDiff` walks the post template's
    resources (creations and updates) and the pre template's resources
    (deletions), stopping at the first resource pair it cannot diff.

    `doCfnDiff` as written has two defects: it panics when the post template
    is nil and the pre template has resources, and its `allOld` is the list of
    new resources followed by the last old resource visited. The as-written
    behaviour is `DoCfnDiffAsWritten`; `DoCfnDiff` is the corrected one, which
    `Diff` uses. */
module CloudformationEngine {
  import opened Base
  import opened CfnResources
  import opened ResourceDiffs
  import opened Extract
  import opened CfnDiffing

  const DiffContext := "unable to diff resources - "
  const RenderContext := "unable to concurrently render cfn resources - "

  /** The record list and the two resource lists `doCfnDiff` returns. */
  datatype CfnDiffs = CfnDiffs(diff: seq<ResourceDiff>, allOld: seq<Resource>, allNew: seq<Resource>)

  /** Visiting the post resource `name`: a name the pre template lacks is a
      creation carrying the diff from nothing; a name it has is an update
      when the pair's changelog is non-empty and nothing otherwise. */
  function NewVisit(codec: CfnCodec, oldRes: map<string, CfnRes>, name: string, res: CfnRes): (v: Visit)
    ensures v.Failure? ==> v.error.Wrap? && v.error.context == DiffContext
    ensures name !in oldRes ==>
      (v.Success? <==> CfnDiffResource(codec, None, Some(res)).Success?)
      && (v.Success? ==> v.value == Some(ResourceDiff(Create, None, Some(Expose(name, res)), CfnDiffResource(codec, None, Some(res)).value)))
    ensures name in oldRes ==>
      var cl := CfnDiffResource(codec, Some(oldRes[name]), Some(res));
      (v.Success? <==> cl.Success?)
      && (v.Success? ==> (v.value.Some? <==> |cl.value| > 0))
      && (v.Success? && v.value.Some? ==>
            v.value.value == ResourceDiff(Update, Some(Expose(name, oldRes[name])), Some(Expose(name, res)), cl.value))
  {
    if name !in oldRes then
      match CfnDiffResource(codec, None, Some(res))
      case Failure(e) => Failure(Wrap(DiffContext, e))
      case Success(cl) => Success(Some(ResourceDiff(Create, None, Some(Expose(name, res)), cl)))
    else
      match CfnDiffResource(codec, Some(oldRes[name]), Some(res))
      case Failure(e) => Failure(Wrap(DiffContext, e))
      case Success(cl) =>
        if |cl| > 0 then Success(Some(ResourceDiff(Update, Some(Expose(name, oldRes[name])), Some(Expose(name, res)), cl)))
        else Success(None)
  }

  /** Visiting the pre resource `name`: a name the post template lacks is a
      deletion carrying the diff to nothing; any other name yields nothing. */
  function OldVisit(codec: CfnCodec, newRes: map<string, CfnRes>, name: string, res: CfnRes): (v: Visit)
    ensures v.Failure? ==> v.error.Wrap? && v.error.context == DiffContext && name !in newRes
    ensures name in newRes ==> v == Success(None)
    ensures name !in newRes ==>
      (v.Success? <==> CfnDiffResource(codec, Some(res), None).Success?)
      && (v.Success? ==> v.value == Some(ResourceDiff(Delete, Some(Expose(name, res)), None, CfnDiffResource(codec, Some(res), None).value)))
  {
    if name in newRes then Success(None)
    else
      match CfnDiffResource(codec, Some(res), None)
      case Failure(e) => Failure(Wrap(DiffContext, e))
      case Success(cl) => Success(Some(ResourceDiff(Delete, Some(Expose(name, res)), None, cl)))
  }

  /** The post-resource decision, given the pre template's resources. */
  function NewVisitFn(codec: CfnCodec, oldRes: map<string, CfnRes>): VisitFn {
    (name, res) => NewVisit(codec, oldRes, name, res)
  }

  /** The pre-resource decision, given the post template's resources. */
  function OldVisitFn(codec: CfnCodec, newRes: map<string, CfnRes>): VisitFn {
    (name, res) => OldVisit(codec, newRes, name, res)
  }

  /** The records of the two loops of `doCfnDiff`. */
  function CfnRecords(codec: CfnCodec, oldT: Option<Template>, newT: Option<Template>, oldOrder: seq<string>, newOrder: seq<string>): Result<seq<ResourceDiff>>
    requires IsOrder(oldOrder, ResourcesOf(oldT)) && IsOrder(newOrder, ResourcesOf(newT))
  {
    var oldRes, newRes := ResourcesOf(oldT), ResourcesOf(newT);
    ScanBoth(NewVisitFn(codec, oldRes), OldVisitFn(codec, newRes), newRes, oldRes, newOrder, oldOrder)
  }

  /** What the corrected `doCfnDiff` returns, for the given visiting orders;
      a nil template has no resources. */
  function CfnDiffSpec(codec: CfnCodec, oldT: Option<Template>, newT: Option<Template>, oldOrder: seq<string>, newOrder: seq<string>): Result<CfnDiffs>
    requires IsOrder(oldOrder, ResourcesOf(oldT)) && IsOrder(newOrder, ResourcesOf(newT))
  {
    match CfnRecords(codec, oldT, newT, oldOrder, newOrder)
    case Failure(e) => Failure(e)
    case Success(diff) =>
      Success(CfnDiffs(diff, AllExposed(ResourcesOf(oldT), oldOrder, |oldOrder|), AllExposed(ResourcesOf(newT), newOrder, |newOrder|)))
  }

  /** What `doCfnDiff` as written returns: it panics on the first pre
      resource when the post template is nil, and its `allOld` is `allNew`
      followed by the last pre resource visited. */
  function CfnDiffAsWrittenSpec(codec: CfnCodec, oldT: Option<Template>, newT: Option<Template>, oldOrder: seq<string>, newOrder: seq<string>): Outcome<CfnDiffs>
    requires IsOrder(oldOrder, ResourcesOf(oldT)) && IsOrder(newOrder, ResourcesOf(newT))
  {
    if newT.None? && |oldOrder| > 0 then Panicked("nil dereference")
    else match CfnDiffSpec(codec, oldT, newT, oldOrder, newOrder)
      case Failure(e) => Failed(e)
      case Success(d) =>
        if |oldOrder| == 0 then Done(d.(allOld := []))
        else
          var last := oldOrder[|oldOrder| - 1];
          Done(d.(allOld := d.allNew + [Expose(last, ResourcesOf(oldT)[last])]))
  }

  /** A failing visit after a successful prefix decides the scan. */
  lemma ScanStopsAt(vs: seq<Visit>, i: int)
    requires 0 <= i < |vs| && Scan(vs, i).Success? && vs[i].Failure?
    ensures Scan(vs, |vs|) == Failure(vs[i].error)
  {
    ScanStaysFailed(vs, i + 1, |vs|);
  }

  // ---------------------------------------------------------------------------
  // The loops

  /** One iteration of the post-resource loop. */
  method VisitNewResource(codec: CfnCodec, oldRes: map<string, CfnRes>, name: string, res: CfnRes) returns (v: Visit)
    ensures v == NewVisit(codec, oldRes, name, res)
  {
    var ok := name in oldRes;
    if !ok {
      var rDiff := CfnDiffResource(codec, None, Some(res));
      if rDiff.Failure? {
        return Failure(Wrap(DiffContext, rDiff.error));
      }
      return Success(Some(ResourceDiff(Create, None, Some(Expose(name, res)), rDiff.value)));
    }
    var oldR := oldRes[name];
    var rDiff := CfnDiffResource(codec, Some(oldR), Some(res));
    if rDiff.Failure? {
      return Failure(Wrap(DiffContext, rDiff.error));
    }
    if |rDiff.value| > 0 {
      return Success(Some(ResourceDiff(Update, Some(Expose(name, oldR)), Some(Expose(name, res)), rDiff.value)));
    }
    return Success(None);
  }

  /** One iteration of the pre-resource loop, past the lookup in the post
      template. */
  method VisitOldResource(codec: CfnCodec, newRes: map<string, CfnRes>, name: string, res: CfnRes) returns (v: Visit)
    ensures v == OldVisit(codec, newRes, name, res)
  {
    if name !in newRes {
      var rDiff := CfnDiffResource(codec, Some(res), None);
      if rDiff.Failure? {
        return Failure(Wrap(DiffContext, rDiff.error));
      }
      return Success(Some(ResourceDiff(Delete, Some(Expose(name, res)), None, rDiff.value)));
    }
    return Success(None);
  }

  /** The loop over the post template's resources. */
  method ScanNewResources(codec: CfnCodec, oldRes: map<string, CfnRes>, newRes: map<string, CfnRes>, order: seq<string>)
    returns (r: Result<seq<ResourceDiff>>, allNew: seq<Resource>)
    requires IsOrder(order, newRes)
    ensures r == Scan(Visits(NewVisitFn(codec, oldRes), newRes, order), |order|)
    ensures allNew == AllExposed(newRes, order, |order|)
  {
    ghost var vs := Visits(NewVisitFn(codec, oldRes), newRes, order);
    var diff: seq<ResourceDiff> := [];
    allNew := [];
    var i := 0;
    while i < |order|
      invariant 0 <= i <= |order|
      invariant Scan(vs, i) == Success(diff)
      invariant allNew == AllExposed(newRes, order, i)
    {
      var name := order[i];
      var res := newRes[name];
      AllExposedStep(newRes, order, i);
      allNew := allNew + [Expose(name, res)];
      var v := VisitNewResource(codec, oldRes, name, res);
      assert vs[i] == v by {
        VisitsAt(NewVisitFn(codec, oldRes), newRes, order, i);
      }
      if v.Failure? {
        ScanStopsAt(vs, i);
        allNew := AllExposed(newRes, order, |order|);
        return Failure(v.error), allNew;
      }
      ScanStep(vs, i, diff);
      diff := diff + OptSeq(v.value);
      i := i + 1;
    }
    r := Success(diff);
  }

  /** The loop over the pre template's resources, corrected: a nil post
      template has no resources, and every pre resource is listed. */
  method ScanOldResources(codec: CfnCodec, newRes: map<string, CfnRes>, oldRes: map<string, CfnRes>, order: seq<string>)
    returns (r: Result<seq<ResourceDiff>>, allOld: seq<Resource>)
    requires IsOrder(order, oldRes)
    ensures r == Scan(Visits(OldVisitFn(codec, newRes), oldRes, order), |order|)
    ensures allOld == AllExposed(oldRes, order, |order|)
  {
    ghost var vs := Visits(OldVisitFn(codec, newRes), oldRes, order);
    var diff: seq<ResourceDiff> := [];
    allOld := [];
    var k := 0;
    while k < |order|
      invariant 0 <= k <= |order|
      invariant Scan(vs, k) == Success(diff)
      invariant allOld == AllExposed(oldRes, order, k)
    {
      var name := order[k];
      var res := oldRes[name];
      AllExposedStep(oldRes, order, k);
      allOld := allOld + [Expose(name, res)];
      var v := VisitOldResource(codec, newRes, name, res);
      assert vs[k] == v by {
        VisitsAt(OldVisitFn(codec, newRes), oldRes, order, k);
      }
      if v.Failure? {
        ScanStopsAt(vs, k);
        allOld := AllExposed(oldRes, order, |order|);
        return Failure(v.error), allOld;
      }
      ScanStep(vs, k, diff);
      diff := diff + OptSeq(v.value);
      k := k + 1;
    }
    r := Success(diff);
  }

  /** `doCfnDiff`, corrected. */
  method DoCfnDiff(codec: CfnCodec, oldT: Option<Template>, newT: Option<Template>, oldOrder: seq<string>, newOrder: seq<string>)
    returns (r: Result<CfnDiffs>)
    requires IsOrder(oldOrder, ResourcesOf(oldT)) && IsOrder(newOrder, ResourcesOf(newT))
    ensures r == CfnDiffSpec(codec, oldT, newT, oldOrder, newOrder)
  {
    var oldRes, newRes := ResourcesOf(oldT), ResourcesOf(newT);
    var upserts, allNew := ScanNewResources(codec, oldRes, newRes, newOrder);
    if upserts.Failure? {
      return Failure(upserts.error);
    }
    var deletes, allOld := ScanOldResources(codec, newRes, oldRes, oldOrder);
    if deletes.Failure? {
      return Failure(deletes.error);
    }
    return Success(CfnDiffs(upserts.value + deletes.value, allOld, allNew));
  }

  /** The pre-resource loop of `doCfnDiff` as written: it reads the nil post
      template on the first pre resource, and each iteration sets `allOld` to
      `allNew` followed by the resource it visits. */
  method ScanOldResourcesAsWritten(codec: CfnCodec, newT: Option<Template>, oldRes: map<string, CfnRes>, order: seq<string>, allNew: seq<Resource>)
    returns (r: Outcome<seq<ResourceDiff>>, allOld: seq<Resource>)
    requires IsOrder(order, oldRes)
    ensures newT.None? && |order| > 0 ==> r == Panicked("nil dereference")
    ensures newT.Some? || |order| == 0 ==>
      match Scan(Visits(OldVisitFn(codec, ResourcesOf(newT)), oldRes, order), |order|)
      case Failure(e) => r == Failed(e)
      case Success(deletes) => r == Done(deletes)
    ensures r.Done? && |order| == 0 ==> allOld == []
    ensures r.Done? && |order| > 0 ==> allOld == allNew + [Expose(order[|order| - 1], oldRes[order[|order| - 1]])]
  {
    var newRes := ResourcesOf(newT);
    ghost var vs := Visits(OldVisitFn(codec, newRes), oldRes, order);
    var deletes: seq<ResourceDiff> := [];
    allOld := [];
    var k := 0;
    while k < |order|
      invariant 0 <= k <= |order|
      invariant k > 0 ==> newT.Some?
      invariant Scan(vs, k) == Success(deletes)
      invariant k == 0 ==> allOld == []
      invariant k > 0 ==> allOld == allNew + [Expose(order[k - 1], oldRes[order[k - 1]])]
    {
      var name := order[k];
      var res := oldRes[name];
      allOld := allNew + [Expose(name, res)];
      if newT.None? {
        return Panicked("nil dereference"), allOld;
      }
      var v := VisitOldResource(codec, newRes, name, res);
      assert vs[k] == v by {
        VisitsAt(OldVisitFn(codec, newRes), oldRes, order, k);
      }
      if v.Failure? {
        ScanStopsAt(vs, k);
        return Failed(v.error), allOld;
      }
      ScanStep(vs, k, deletes);
      deletes := deletes + OptSeq(v.value);
      k := k + 1;
    }
    r := Done(deletes);
  }

  /** `doCfnDiff` as written. */
  method DoCfnDiffAsWritten(codec: CfnCodec, oldT: Option<Template>, newT: Option<Template>, oldOrder: seq<string>, newOrder: seq<string>)
    returns (r: Outcome<CfnDiffs>)
    requires IsOrder(oldOrder, ResourcesOf(oldT)) && IsOrder(newOrder, ResourcesOf(newT))
    ensures r == CfnDiffAsWrittenSpec(codec, oldT, newT, oldOrder, newOrder)
  {
    var oldRes, newRes := ResourcesOf(oldT), ResourcesOf(newT);
    var upserts, allNew := ScanNewResources(codec, oldRes, newRes, newOrder);
    if upserts.Failure? {
      return Failed(upserts.error);
    }
    var deletes, allOld := ScanOldResourcesAsWritten(codec, newT, oldRes, oldOrder, allNew);
    match deletes {
      case Panicked(reason) =>
        return Panicked(reason);
      case Failed(e) =>
        return Failed(e);
      case Done(ds) =>
        return Done(CfnDiffs(upserts.value + ds, allOld, allNew));
    }
  }

  /** What `Diff` returns for the two renders: an extraction error (both
      sides nil) is wrapped, anything else goes to the corrected diff. */
  function CfnOutcome(codec: CfnCodec, pre: Result<Option<Template>>, post: Result<Option<Template>>, oldOrder: seq<string>, newOrder: seq<string>): Result<CfnDiffs>
    requires IsOrder(oldOrder, ResourcesOf(Value(pre))) && IsOrder(newOrder, ResourcesOf(Value(post)))
  {
    var x := ExtractRule(pre, post);
    if x.err.Some? && x.pre.None? && x.post.None? then Failure(Wrap(RenderContext, x.err.value))
    else CfnDiffSpec(codec, x.pre, x.post, oldOrder, newOrder)
  }

  /** `cfnDiffer.Diff` over the two renders. */
  method Diff(codec: CfnCodec, pre: Result<Option<Template>>, post: Result<Option<Template>>, oldOrder: seq<string>, newOrder: seq<string>)
    returns (r: Result<CfnDiffs>)
    requires IsOrder(oldOrder, ResourcesOf(Value(pre))) && IsOrder(newOrder, ResourcesOf(Value(post)))
    ensures r == CfnOutcome(codec, pre, post, oldOrder, newOrder)
  {
    var x := ExtractConcurrent(pre, post);
    if x.err.Some? && x.pre.None? && x.post.None? {
      return Failure(Wrap(RenderContext, x.err.value));
    }
    r := DoCfnDiff(codec, x.pre, x.post, oldOrder, newOrder);
  }

  /** What `Diff` as written returns: the same extraction gate, followed by
      `doCfnDiff` as written. */
  function CfnOutcomeAsWritten(codec: CfnCodec, pre: Result<Option<Template>>, post: Result<Option<Template>>, oldOrder: seq<string>, newOrder: seq<string>): Outcome<CfnDiffs>
    requires IsOrder(oldOrder, ResourcesOf(Value(pre))) && IsOrder(newOrder, ResourcesOf(Value(post)))
  {
    var x := ExtractRule(pre, post);
    if x.err.Some? && x.pre.None? && x.post.None? then Failed(Wrap(RenderContext, x.err.value))
    else CfnDiffAsWrittenSpec(codec, x.pre, x.post, oldOrder, newOrder)
  }

  /** `cfnDiffer.Diff` as written, over the two renders. */
  method DiffAsWritten(codec: CfnCodec, pre: Result<Option<Template>>, post: Result<Option<Template>>, oldOrder: seq<string>, newOrder: seq<string>)
    returns (r: Outcome<CfnDiffs>)
    requires IsOrder(oldOrder, ResourcesOf(Value(pre))) && IsOrder(newOrder, ResourcesOf(Value(post)))
    ensures r == CfnOutcomeAsWritten(codec, pre, post, oldOrder, newOrder)
  {
    var x := ExtractConcurrent(pre, post);
    if x.err.Some? && x.pre.None? && x.post.None? {
      return Failed(Wrap(RenderContext, x.err.value));
    }
    r := DoCfnDiffAsWritten(codec, x.pre, x.post, oldOrder, newOrder);
  }

  /** As written, a failed post render next to a pre template with resources
      panics: the extraction drops the post error and hands `doCfnDiff` a nil
      post template. The corrected `Diff` deletes every pre resource instead
      (`NilPostDeletesAll`). */
  lemma PostFailurePanicsAsWritten(codec: CfnCodec, oldT: Template, e: Error, oldOrder: seq<string>)
    requires IsOrder(oldOrder, oldT.resources) && oldT.resources != map[]
    ensures CfnOutcomeAsWritten(codec, Success(Some(oldT)), Failure(e), oldOrder, []).Panicked?
    ensures CfnOutcome(codec, Success(Some(oldT)), Failure(e), oldOrder, []) == CfnDiffSpec(codec, Some(oldT), None, oldOrder, [])
  {
    assert ExtractRule(Success(Some(oldT)), Failure(e)) == Extracted(Some(oldT), None, None);
    NilPostPanicsAsWritten(codec, Some(oldT), oldOrder);
  }

  // ---------------------------------------------------------------------------
  // What the corrected diff reports, whatever the visiting order

  /** The diff succeeds exactly when every resource pair can be diffed; then
      every post resource absent from the pre template is recorded as
      created, every changed resource present in both as updated, and every
      pre resource absent from the post template as deleted. */
  lemma CfnRecordsByName(codec: CfnCodec, oldT: Option<Template>, newT: Option<Template>, oldOrder: seq<string>, newOrder: seq<string>, name: string)
    requires IsOrder(oldOrder, ResourcesOf(oldT)) && IsOrder(newOrder, ResourcesOf(newT))
    ensures var r := CfnDiffSpec(codec, oldT, newT, oldOrder, newOrder);
      && (r.Success? <==>
            && (forall n :: n in ResourcesOf(newT) ==> NewVisit(codec, ResourcesOf(oldT), n, ResourcesOf(newT)[n]).Success?)
            && (forall n :: n in ResourcesOf(oldT) ==> OldVisit(codec, ResourcesOf(newT), n, ResourcesOf(oldT)[n]).Success?))
      && (r.Success? && name in ResourcesOf(newT) && NewVisit(codec, ResourcesOf(oldT), name, ResourcesOf(newT)[name]).value.Some? ==>
            NewVisit(codec, ResourcesOf(oldT), name, ResourcesOf(newT)[name]).value.value in r.value.diff)
      && (r.Success? && name in ResourcesOf(oldT) && OldVisit(codec, ResourcesOf(newT), name, ResourcesOf(oldT)[name]).value.Some? ==>
            OldVisit(codec, ResourcesOf(newT), name, ResourcesOf(oldT)[name]).value.value in r.value.diff)
  {
    var oldRes, newRes := ResourcesOf(oldT), ResourcesOf(newT);
    var fNew, fOld := NewVisitFn(codec, oldRes), OldVisitFn(codec, newRes);
    BothSucceedsIff(fNew, fOld, newRes, oldRes, newOrder, oldOrder);
    if CfnRecords(codec, oldT, newT, oldOrder, newOrder).Success? {
      BothIncluded(fNew, fOld, newRes, oldRes, newOrder, oldOrder, name);
    }
  }

  /** Every record of a successful diff is the record of some post
      resource's visit or of some pre resource's visit. */
  lemma CfnRecordSource(codec: CfnCodec, oldT: Option<Template>, newT: Option<Template>, oldOrder: seq<string>, newOrder: seq<string>, k: int)
    returns (name: string)
    requires IsOrder(oldOrder, ResourcesOf(oldT)) && IsOrder(newOrder, ResourcesOf(newT))
    requires CfnDiffSpec(codec, oldT, newT, oldOrder, newOrder).Success?
    requires 0 <= k < |CfnDiffSpec(codec, oldT, newT, oldOrder, newOrder).value.diff|
    ensures var rd := CfnDiffSpec(codec, oldT, newT, oldOrder, newOrder).value.diff[k];
      || (name in ResourcesOf(newT) && NewVisit(codec, ResourcesOf(oldT), name, ResourcesOf(newT)[name]) == Success(Some(rd)))
      || (name in ResourcesOf(oldT) && OldVisit(codec, ResourcesOf(newT), name, ResourcesOf(oldT)[name]) == Success(Some(rd)))
  {
    var oldRes, newRes := ResourcesOf(oldT), ResourcesOf(newT);
    name := BothSource(NewVisitFn(codec, oldRes), OldVisitFn(codec, newRes), newRes, oldRes, newOrder, oldOrder, k);
  }

  /** A failed diff reports the error of some resource pair. */
  lemma CfnFailureSource(codec: CfnCodec, oldT: Option<Template>, newT: Option<Template>, oldOrder: seq<string>, newOrder: seq<string>)
    returns (name: string)
    requires IsOrder(oldOrder, ResourcesOf(oldT)) && IsOrder(newOrder, ResourcesOf(newT))
    requires CfnDiffSpec(codec, oldT, newT, oldOrder, newOrder).Failure?
    ensures var e := CfnDiffSpec(codec, oldT, newT, oldOrder, newOrder).error;
      || (name in ResourcesOf(newT) && NewVisit(codec, ResourcesOf(oldT), name, ResourcesOf(newT)[name]) == Failure(e))
      || (name in ResourcesOf(oldT) && OldVisit(codec, ResourcesOf(newT), name, ResourcesOf(oldT)[name]) == Failure(e))
  {
    var oldRes, newRes := ResourcesOf(oldT), ResourcesOf(newT);
    name := BothFailureSource(NewVisitFn(codec, oldRes), OldVisitFn(codec, newRes), newRes, oldRes, newOrder, oldOrder);
  }

  /** The visiting order of Go's map iteration does not matter: whether the
      diff fails, the set of records and the two resource lists, read as
      sets, are the same for any two enumerations of the templates. */
  lemma CfnOrderIrrelevant(codec: CfnCodec, oldT: Option<Template>, newT: Option<Template>,
                           oldOrder1: seq<string>, newOrder1: seq<string>, oldOrder2: seq<string>, newOrder2: seq<string>)
    requires IsOrder(oldOrder1, ResourcesOf(oldT)) && IsOrder(newOrder1, ResourcesOf(newT))
    requires IsOrder(oldOrder2, ResourcesOf(oldT)) && IsOrder(newOrder2, ResourcesOf(newT))
    ensures var r1, r2 := CfnDiffSpec(codec, oldT, newT, oldOrder1, newOrder1), CfnDiffSpec(codec, oldT, newT, oldOrder2, newOrder2);
      && (r1.Success? <==> r2.Success?)
      && (r1.Success? && r2.Success? ==>
            && (forall rd :: rd in r1.value.diff <==> rd in r2.value.diff)
            && (forall r :: r in r1.value.allOld <==> r in r2.value.allOld)
            && (forall r :: r in r1.value.allNew <==> r in r2.value.allNew))
  {
    var oldRes, newRes := ResourcesOf(oldT), ResourcesOf(newT);
    BothOrderIrrelevant(NewVisitFn(codec, oldRes), OldVisitFn(codec, newRes), newRes, oldRes, newOrder1, oldOrder1, newOrder2, oldOrder2);
    AllExposedMembers(oldRes, oldOrder1);
    AllExposedMembers(oldRes, oldOrder2);
    AllExposedMembers(newRes, newOrder1);
    AllExposedMembers(newRes, newOrder2);
  }

  // ---------------------------------------------------------------------------
  // The two defects of `doCfnDiff` and the corrected behaviour

  /** As written, a nil post template next to a pre template with resources
      panics, whatever the visiting order. */
  lemma NilPostPanicsAsWritten(codec: CfnCodec, oldT: Option<Template>, oldOrder: seq<string>)
    requires IsOrder(oldOrder, ResourcesOf(oldT)) && ResourcesOf(oldT) != map[]
    ensures CfnDiffAsWrittenSpec(codec, oldT, None, oldOrder, []).Panicked?
  {
    var name :| name in ResourcesOf(oldT);
    assert name in oldOrder;
  }

  /** With a nil post template, the corrected diff succeeds exactly when
      every pre resource can be diffed against nothing. */
  lemma NilPostSucceedsIff(codec: CfnCodec, oldT: Option<Template>, oldOrder: seq<string>)
    requires IsOrder(oldOrder, ResourcesOf(oldT))
    ensures CfnDiffSpec(codec, oldT, None, oldOrder, []).Success? <==>
      forall name :: name in ResourcesOf(oldT) ==> CfnDiffResource(codec, Some(ResourcesOf(oldT)[name]), None).Success?
  {
    var oldRes: map<string, CfnRes>, newRes: map<string, CfnRes> := ResourcesOf(oldT), map[];
    BothSucceedsIff(NewVisitFn(codec, oldRes), OldVisitFn(codec, newRes), newRes, oldRes, [], oldOrder);
  }

  /** With a nil post template, a successful corrected diff holds one record
      per pre resource. */
  lemma NilPostRecordCount(codec: CfnCodec, oldT: Option<Template>, oldOrder: seq<string>)
    requires IsOrder(oldOrder, ResourcesOf(oldT))
    requires CfnDiffSpec(codec, oldT, None, oldOrder, []).Success?
    ensures |CfnDiffSpec(codec, oldT, None, oldOrder, []).value.diff| == |ResourcesOf(oldT).Keys|
  {
    var oldRes: map<string, CfnRes>, newRes: map<string, CfnRes> := ResourcesOf(oldT), map[];
    var fOld := OldVisitFn(codec, newRes);
    var ov := Visits(fOld, oldRes, oldOrder);
    assert CfnDiffSpec(codec, oldT, None, oldOrder, []).value.diff == Scan(ov, |oldOrder|).value by {
      assert Scan(Visits(NewVisitFn(codec, oldRes), newRes, []), 0) == Success([]);
    }
    assert forall name :: name in oldRes ==> fOld(name, oldRes[name]).Success? by {
      BothSucceedsIff(NewVisitFn(codec, oldRes), fOld, newRes, oldRes, [], oldOrder);
    }
    forall k | 0 <= k < |oldOrder|
      ensures ov[k].Success? && ov[k].value.Some?
    {
      VisitsAt(fOld, oldRes, oldOrder, k);
      assert ov[k] == OldVisit(codec, newRes, oldOrder[k], oldRes[oldOrder[k]]);
    }
    ScanAllRecords(ov, |oldOrder|);
    OrderSize(oldOrder, oldRes);
  }

  /** Corrected, a nil post template reports every pre resource as deleted:
      the diff fails only when some pre resource cannot be diffed against
      nothing, and otherwise holds one deletion per pre resource. */
  lemma NilPostDeletesAll(codec: CfnCodec, oldT: Option<Template>, oldOrder: seq<string>)
    requires IsOrder(oldOrder, ResourcesOf(oldT))
    ensures var r := CfnDiffSpec(codec, oldT, None, oldOrder, []);
      && (r.Success? <==> forall name :: name in ResourcesOf(oldT) ==> CfnDiffResource(codec, Some(ResourcesOf(oldT)[name]), None).Success?)
      && (r.Success? ==>
            && |r.value.diff| == |ResourcesOf(oldT).Keys|
            && (forall k :: 0 <= k < |r.value.diff| ==> r.value.diff[k].typ == Delete && r.value.diff[k].post.None?))
  {
    var r := CfnDiffSpec(codec, oldT, None, oldOrder, []);
    NilPostSucceedsIff(codec, oldT, oldOrder);
    if r.Success? {
      NilPostRecordCount(codec, oldT, oldOrder);
      forall k | 0 <= k < |r.value.diff|
        ensures r.value.diff[k].typ == Delete && r.value.diff[k].post.None?
      {
        var name := CfnRecordSource(codec, oldT, None, oldOrder, [], k);
      }
    }
  }

  /** As written, with an empty post template and two or more pre resources,
      `allOld` leaves out the first pre resource visited. */
  lemma AllOldDropsResourcesAsWritten(codec: CfnCodec, oldT: Option<Template>, formatVersion: string, oldOrder: seq<string>)
    requires IsOrder(oldOrder, ResourcesOf(oldT)) && |oldOrder| >= 2
    requires CfnDiffAsWrittenSpec(codec, oldT, Some(Template(formatVersion, map[])), oldOrder, []).Done?
    ensures var first := oldOrder[0];
      Expose(first, ResourcesOf(oldT)[first]) !in CfnDiffAsWrittenSpec(codec, oldT, Some(Template(formatVersion, map[])), oldOrder, []).value.allOld
  {
    var newT := Some(Template(formatVersion, map[]));
    var d := CfnDiffSpec(codec, oldT, newT, oldOrder, []).value;
    assert d.allNew == [];
  }

  /** Corrected, a successful diff lists every pre resource in `allOld` and
      every post resource in `allNew`, each once. */
  lemma AllResourcesListed(codec: CfnCodec, oldT: Option<Template>, newT: Option<Template>, oldOrder: seq<string>, newOrder: seq<string>)
    requires IsOrder(oldOrder, ResourcesOf(oldT)) && IsOrder(newOrder, ResourcesOf(newT))
    requires CfnDiffSpec(codec, oldT, newT, oldOrder, newOrder).Success?
    ensures var d := CfnDiffSpec(codec, oldT, newT, oldOrder, newOrder).value;
      && |d.allOld| == |ResourcesOf(oldT).Keys| && |d.allNew| == |ResourcesOf(newT).Keys|
      && (forall r :: r in d.allOld <==> exists name :: name in ResourcesOf(oldT) && r == Expose(name, ResourcesOf(oldT)[name]))
      && (forall r :: r in d.allNew <==> exists name :: name in ResourcesOf(newT) && r == Expose(name, ResourcesOf(newT)[name]))
  {
    AllExposedMembers(ResourcesOf(oldT), oldOrder);
    AllExposedMembers(ResourcesOf(newT), newOrder);
  }
}
