/** The resource-map diff shared by the Kubernetes and kustomize engines
    (`doResmapDiff` in kubernetes.go; the same steps inline in the `Diff` of
    kustomize.go and kustomize_differ.go). New resources are visited in map
    order: one without an old counterpart is created, a changed one updated,
    a pair whose structural diff fails contributes only its error. Then old
    resources without a new counterpart are reported, tagged as updates with
    no post side. Exposed resources come from the clean copies; origins are
    read from the raw resources. */
module ResmapDiff {
  import opened Base
  import opened KubeObjects
  import opened ResourceDiffs

  /** How an engine wraps an object: the wrapper it uses and its origin rule. */
  datatype Wrapping = Wrapping(kustomize: bool, origin: Option<Origin> -> Origin)

  /** The wrapper exposing `exposed`, with the origin read from `raw`. */
  function Expose(w: Wrapping, raw: KubeObject, exposed: KubeObject): Resource {
    var kr := KubeResource(exposed, w.origin(raw.origin));
    if w.kustomize then KustomizeRes(kr) else KubernetesRes(kr)
  }

  /** `kubeDiffResmap`: YAML round trip and structural diff, both foreign. */
  type StructuralDiff = (KubeObject, KubeObject) -> Result<Changelog>

  /** The two maps after the nil defaulting, their clean copies, the
      structural diff and the wrapping. */
  datatype Inputs = Inputs(
    oldMap: seq<KubeObject>,
    newMap: seq<KubeObject>,
    cleanedOld: seq<KubeObject>,
    cleanedNew: seq<KubeObject>,
    sd: StructuralDiff,
    w: Wrapping)

  predicate Shaped(inp: Inputs) {
    |inp.cleanedOld| == |inp.oldMap| && |inp.cleanedNew| == |inp.newMap|
  }

  predicate Valid(inp: Inputs) {
    && UniqueIds(inp.oldMap) && UniqueIds(inp.newMap)
    && CleanCopy(inp.oldMap, inp.cleanedOld) && CleanCopy(inp.newMap, inp.cleanedNew)
  }

  /** What visiting one new resource contributes: a record, an error, or
      nothing. */
  datatype Step = Step(record: Option<ResourceDiff>, err: Option<Error>)

  /** The visit of the `i`-th new resource. */
  function UpsertAt(inp: Inputs, i: int): (s: Step)
    requires Shaped(inp) && 0 <= i < |inp.newMap|
    ensures s.record.Some? ==> s.err.None?
    ensures s.record.Some? ==> s.record.value.post == Some(Expose(inp.w, inp.newMap[i], inp.cleanedNew[i]))
    ensures s.record.Some? ==> s.record.value.typ == Create || s.record.value.typ == Update
    ensures s.record.Some? && s.record.value.typ == Create ==> s.record.value.pre.None? && s.record.value.diff == []
    ensures s.record.Some? && s.record.value.typ == Update ==> s.record.value.pre.Some? && |s.record.value.diff| > 0
  {
    var n := inp.newMap[i];
    var found := IndicesOf(inp.oldMap, CurId(n));
    var post := Some(Expose(inp.w, n, inp.cleanedNew[i]));
    if |found| != 1 then Step(Some(ResourceDiff(Create, None, post, [])), None)
    else
      var j := found[0];
      match inp.sd(inp.oldMap[j], n)
      case Failure(e) => Step(None, Some(e))
      case Success(cl) =>
        if |cl| > 0 then Step(Some(ResourceDiff(Update, Some(Expose(inp.w, inp.oldMap[j], inp.cleanedOld[j])), post, cl)), None)
        else Step(None, None)
  }

  /** The removal record for the `i`-th old resource, if it has no new
      counterpart. */
  function RemovalAt(inp: Inputs, i: int): (r: Option<ResourceDiff>)
    requires Shaped(inp) && 0 <= i < |inp.oldMap|
    ensures r.Some? <==> GetByCurrentId(inp.newMap, CurId(inp.oldMap[i])).Failure?
    ensures r.Some? ==> r.value == ResourceDiff(Update, Some(Expose(inp.w, inp.oldMap[i], inp.cleanedOld[i])), None, [])
  {
    if GetByCurrentId(inp.newMap, CurId(inp.oldMap[i])).Failure?
    then Some(ResourceDiff(Update, Some(Expose(inp.w, inp.oldMap[i], inp.cleanedOld[i])), None, []))
    else None
  }

  /** The visits of every new resource, in the new map's order. */
  function Steps(inp: Inputs): (ss: seq<Step>)
    requires Shaped(inp)
    ensures |ss| == |inp.newMap|
  {
    seq(|inp.newMap|, i requires 0 <= i < |inp.newMap| => UpsertAt(inp, i))
  }

  /** The removal decisions for every old resource, in the old map's order. */
  function RemovalSteps(inp: Inputs): (rs: seq<Option<ResourceDiff>>)
    requires Shaped(inp)
    ensures |rs| == |inp.oldMap|
  {
    seq(|inp.oldMap|, k requires 0 <= k < |inp.oldMap| => RemovalAt(inp, k))
  }

  /** Records of the first `n` visits, in order. */
  function Upserts(ss: seq<Step>, n: int): seq<ResourceDiff>
    requires 0 <= n <= |ss|
    decreases n
  {
    if n == 0 then [] else Upserts(ss, n - 1) + OptSeq(ss[n - 1].record)
  }

  /** Errors of the first `n` visits, in order. */
  function UpsertErrors(ss: seq<Step>, n: int): seq<Error>
    requires 0 <= n <= |ss|
    decreases n
  {
    if n == 0 then [] else UpsertErrors(ss, n - 1) + OptSeq(ss[n - 1].err)
  }

  /** The error after the first `n` visits, as the loop accumulates it with
      `errors.Join`. */
  function JoinedErrors(ss: seq<Step>, n: int): Option<Error>
    requires 0 <= n <= |ss|
    decreases n
  {
    if n == 0 then None
    else
      var acc := JoinedErrors(ss, n - 1);
      match ss[n - 1].err
      case None => acc
      case Some(e) => Some(JoinErr(acc, e))
  }

  /** The accumulated error is the join, in order, of the listed errors. */
  lemma {:induction false} JoinedErrorsAll(ss: seq<Step>, n: int)
    requires 0 <= n <= |ss|
    ensures JoinedErrors(ss, n) == JoinAll(UpsertErrors(ss, n))
    decreases n
  {
    if n > 0 {
      JoinedErrorsAll(ss, n - 1);
      JoinOptional(JoinedErrors(ss, n - 1), UpsertErrors(ss, n - 1), ss[n - 1].err);
    }
  }

  /** Joining an optional error onto the join of `es` is the join of `es`
      followed by that error, if any. */
  lemma JoinOptional(acc: Option<Error>, es: seq<Error>, o: Option<Error>)
    requires acc == JoinAll(es)
    ensures (if o.Some? then Some(JoinErr(acc, o.value)) else acc) == JoinAll(es + OptSeq(o))
  {
    if o.Some? {
      JoinAllSnoc(es, o.value);
    } else {
      assert es + [] == es;
    }
  }

  /** The removal records among the first `n` decisions, in order. */
  function Removals(rs: seq<Option<ResourceDiff>>, n: int): seq<ResourceDiff>
    requires 0 <= n <= |rs|
    decreases n
  {
    if n == 0 then [] else Removals(rs, n - 1) + OptSeq(rs[n - 1])
  }

  /** Records of the visits of all new resources. */
  function AllUpserts(inp: Inputs): seq<ResourceDiff>
    requires Shaped(inp)
  {
    Upserts(Steps(inp), |inp.newMap|)
  }

  /** Errors of the visits of all new resources. */
  function AllErrors(inp: Inputs): seq<Error>
    requires Shaped(inp)
  {
    UpsertErrors(Steps(inp), |inp.newMap|)
  }

  /** The whole record list: creations and updates in new's order, then
      removals in old's order. */
  function Records(inp: Inputs): seq<ResourceDiff>
    requires Shaped(inp)
  {
    AllUpserts(inp) + Removals(RemovalSteps(inp), |inp.oldMap|)
  }

  /** `allNew`/`allOld`: every raw resource of a map, wrapped, in order. */
  function AllWrapped(w: Wrapping, rm: seq<KubeObject>, n: int): (r: seq<Resource>)
    requires 0 <= n <= |rm|
    ensures |r| == n
    decreases n
  {
    if n == 0 then [] else AllWrapped(w, rm, n - 1) + [Expose(w, rm[n - 1], rm[n - 1])]
  }

  /** `allNew`/`allOld` hold one wrapper per resource of the raw map, in the
      map's order, each exposing the raw resource itself. */
  lemma {:induction false} AllWrappedAt(w: Wrapping, rm: seq<KubeObject>, n: int, k: int)
    requires 0 <= k < n <= |rm|
    ensures AllWrapped(w, rm, n)[k] == Expose(w, rm[k], rm[k])
    decreases n
  {
    if k < n - 1 {
      AllWrappedAt(w, rm, n - 1, k);
    }
  }

  /** Everything the diff of two resource maps returns; `None` is nil. */
  datatype KubeOutcome = KubeOutcome(
    diff: Option<seq<ResourceDiff>>,
    allOld: Option<seq<Resource>>,
    allNew: Option<seq<Resource>>,
    err: Option<Error>)

  function OrEmpty(m: Option<seq<KubeObject>>): seq<KubeObject> {
    if m.Some? then m.value else []
  }

  predicate ValidMap(m: Option<seq<KubeObject>>) {
    UniqueIds(OrEmpty(m))
  }

  /** The outcome of diffing two (possibly nil) resource maps. A failing clean
      is fatal; every other failure is joined into the returned error next to
      the records. */
  function DiffMaps(oldRm: Option<seq<KubeObject>>, newRm: Option<seq<KubeObject>>, sd: StructuralDiff, c: Cleaner, w: Wrapping): (r: KubeOutcome)
    ensures r.diff.None? <==> CleanResmap(OrEmpty(oldRm), c).Failure? || CleanResmap(OrEmpty(newRm), c).Failure?
    ensures r.diff.None? ==> r.allOld.None? && r.allNew.None? && r.err.Some? && r.err.value.Wrap?
    ensures r.diff.Some? ==>
      (r.allOld == Some(AllWrapped(w, OrEmpty(oldRm), |OrEmpty(oldRm)|)) &&
       r.allNew == Some(AllWrapped(w, OrEmpty(newRm), |OrEmpty(newRm)|)))
  {
    var o := OrEmpty(oldRm);
    var n := OrEmpty(newRm);
    match CleanResmap(o, c)
    case Failure(e) => KubeOutcome(None, None, None, Some(Wrap("unable to clean old resmap - ", e)))
    case Success(co) =>
      match CleanResmap(n, c)
      case Failure(e) => KubeOutcome(None, None, None, Some(Wrap("unable to clean old resmap - ", e)))
      case Success(cn) =>
        var inp := Inputs(o, n, co, cn, sd, w);
        KubeOutcome(Some(Records(inp)), Some(AllWrapped(w, o, |o|)), Some(AllWrapped(w, n, |n|)), JoinAll(AllErrors(inp)))
  }

  /** The inputs `DiffMaps` builds once both clean copies exist. */
  function InputsOf(oldRm: Option<seq<KubeObject>>, newRm: Option<seq<KubeObject>>, sd: StructuralDiff, c: Cleaner, w: Wrapping): (inp: Inputs)
    requires CleanResmap(OrEmpty(oldRm), c).Success? && CleanResmap(OrEmpty(newRm), c).Success?
    ensures Shaped(inp)
  {
    Inputs(OrEmpty(oldRm), OrEmpty(newRm), CleanResmap(OrEmpty(oldRm), c).value, CleanResmap(OrEmpty(newRm), c).value, sd, w)
  }

  /** The body of the loop over the new map, for the `i`-th new resource: a
      resource the old map lacks is created, one the structural diff finds
      changed is updated, and a failing structural diff yields its error. */
  method VisitOne(inp: Inputs, i: int) returns (s: Step)
    requires Valid(inp) && 0 <= i < |inp.newMap|
    ensures s == UpsertAt(inp, i)
  {
    var o, n, w := inp.oldMap, inp.newMap, inp.w;
    var newRes := n[i];
    CleanedLookup(n, inp.cleanedNew, i);
    var origLookup := GetByCurrentId(o, CurId(newRes));
    if origLookup.Failure? {
      var cleanedPost := GetByCurrentId(inp.cleanedNew, CurId(newRes)).value;
      return Step(Some(ResourceDiff(Create, None, Some(Expose(w, newRes, cleanedPost)), [])), None);
    }
    var origRes := origLookup.value;
    ghost var j := IndicesOf(o, CurId(newRes))[0];
    var changelog := inp.sd(origRes, newRes);
    if changelog.Failure? {
      return Step(None, Some(changelog.error));
    }
    if |changelog.value| == 0 {
      return Step(None, None);
    }
    CleanedLookup(o, inp.cleanedOld, j);
    var cleanedPre := GetByCurrentId(inp.cleanedOld, CurId(origRes)).value;
    var cleanedPost := GetByCurrentId(inp.cleanedNew, CurId(newRes)).value;
    return Step(Some(ResourceDiff(Update, Some(Expose(w, origRes, cleanedPre)), Some(Expose(w, newRes, cleanedPost)), changelog.value)), None);
  }

  /** The loop over the new map: appends to `allNew`, then to the record
      list or the joined error. */
  method VisitNew(inp: Inputs) returns (diff: seq<ResourceDiff>, errs: Option<Error>, allNew: seq<Resource>)
    requires Valid(inp)
    ensures diff == AllUpserts(inp)
    ensures errs == JoinedErrors(Steps(inp), |inp.newMap|)
    ensures allNew == AllWrapped(inp.w, inp.newMap, |inp.newMap|)
  {
    var n, w := inp.newMap, inp.w;
    ghost var ss := Steps(inp);
    diff := [];
    errs := None;
    allNew := [];
    var i := 0;
    while i < |n|
      invariant 0 <= i <= |n|
      invariant diff == Upserts(ss, i)
      invariant errs == JoinedErrors(ss, i)
      invariant allNew == AllWrapped(w, n, i)
    {
      allNew := allNew + [Expose(w, n[i], n[i])];
      var step := VisitOne(inp, i);
      assert step == ss[i] by {
        assert ss[i] == UpsertAt(inp, i);
      }
      if step.record.Some? {
        diff := diff + [step.record.value];
      }
      if step.err.Some? {
        errs := Some(JoinErr(errs, step.err.value));
      }
      i := i + 1;
    }
  }

  /** The body of the loop over the old map, for the `k`-th old resource: a
      removal record exposing its clean copy when the new map lacks its id. */
  method VisitRemoval(inp: Inputs, k: int) returns (r: Option<ResourceDiff>)
    requires Valid(inp) && 0 <= k < |inp.oldMap|
    ensures r == RemovalAt(inp, k)
  {
    var oldRes := inp.oldMap[k];
    if GetByCurrentId(inp.newMap, CurId(oldRes)).Failure? {
      CleanedLookup(inp.oldMap, inp.cleanedOld, k);
      var cleanedPre := GetByCurrentId(inp.cleanedOld, CurId(oldRes)).value;
      return Some(ResourceDiff(Update, Some(Expose(inp.w, oldRes, cleanedPre)), None, []));
    }
    return None;
  }

  /** The loop over the old map: appends to `allOld`, and a removal record for
      every resource the new map lacks. */
  method VisitOld(inp: Inputs, upserts: seq<ResourceDiff>) returns (diff: seq<ResourceDiff>, allOld: seq<Resource>)
    requires Valid(inp)
    ensures diff == upserts + Removals(RemovalSteps(inp), |inp.oldMap|)
    ensures allOld == AllWrapped(inp.w, inp.oldMap, |inp.oldMap|)
  {
    var o, w := inp.oldMap, inp.w;
    ghost var rs := RemovalSteps(inp);
    var removed := [];
    allOld := [];
    var k := 0;
    while k < |o|
      invariant 0 <= k <= |o|
      invariant removed == Removals(rs, k)
      invariant allOld == AllWrapped(w, o, k)
    {
      allOld := allOld + [Expose(w, o[k], o[k])];
      var removal := VisitRemoval(inp, k);
      assert removal == rs[k] by {
        assert rs[k] == RemovalAt(inp, k);
      }
      if removal.Some? {
        removed := removed + [removal.value];
      }
      k := k + 1;
    }
    diff := upserts + removed;
  }

  /** `doResmapDiff`: nil maps become empty, both maps are cleaned, then the
      new map and the old map are visited in turn. */
  method DoResmapDiff(oldRm: Option<seq<KubeObject>>, newRm: Option<seq<KubeObject>>, sd: StructuralDiff, c: Cleaner, w: Wrapping)
    returns (r: KubeOutcome)
    requires ValidMap(oldRm) && ValidMap(newRm) && IdPreserving(c)
    ensures r == DiffMaps(oldRm, newRm, sd, c, w)
  {
    var o := if oldRm.None? then [] else oldRm.value;
    var n := if newRm.None? then [] else newRm.value;

    var cleanedOldResult := CleanResmap(o, c);
    if cleanedOldResult.Failure? {
      return KubeOutcome(None, None, None, Some(Wrap("unable to clean old resmap - ", cleanedOldResult.error)));
    }
    var cleanedNewResult := CleanResmap(n, c);
    if cleanedNewResult.Failure? {
      return KubeOutcome(None, None, None, Some(Wrap("unable to clean old resmap - ", cleanedNewResult.error)));
    }
    CleanKeepsIds(o, c);
    CleanKeepsIds(n, c);
    var inp := Inputs(o, n, cleanedOldResult.value, cleanedNewResult.value, sd, w);

    var upserts, errs, allNew := VisitNew(inp);
    var diff, allOld := VisitOld(inp, upserts);
    JoinedErrorsAll(Steps(inp), |n|);
    return KubeOutcome(Some(diff), Some(allOld), Some(allNew), errs);
  }

  // ---------------------------------------------------------------------------
  // What the records mean

  /** A new resource whose id the old map lacks yields exactly one record:
      a creation with no pre side, its clean copy as post side and an empty
      changelog; a present id never yields a creation. */
  lemma CreateIffAbsent(inp: Inputs, i: int)
    requires Valid(inp) && 0 <= i < |inp.newMap|
    ensures !HasId(inp.oldMap, CurId(inp.newMap[i])) <==>
      UpsertAt(inp, i) == Step(Some(ResourceDiff(Create, None, Some(Expose(inp.w, inp.newMap[i], inp.cleanedNew[i])), [])), None)
  {
    LookupAbsent(inp.oldMap, CurId(inp.newMap[i]));
    if !HasId(inp.oldMap, CurId(inp.newMap[i])) {
      IndicesNone(inp.oldMap, CurId(inp.newMap[i]));
    }
  }

  /** A resource present in both maps (old at `j`, new at `i`) yields an
      update record carrying both clean copies and the changelog exactly when
      the structural diff succeeds with a non-empty changelog; a failing
      structural diff yields its error and no record. */
  lemma UpdateIffChanged(inp: Inputs, i: int, j: int)
    requires Valid(inp) && 0 <= i < |inp.newMap| && 0 <= j < |inp.oldMap|
    requires CurId(inp.oldMap[j]) == CurId(inp.newMap[i])
    ensures var cl := inp.sd(inp.oldMap[j], inp.newMap[i]);
      && (UpsertAt(inp, i).record.Some? <==> cl.Success? && |cl.value| > 0)
      && (UpsertAt(inp, i).record.Some? ==>
            UpsertAt(inp, i).record.value == ResourceDiff(Update,
              Some(Expose(inp.w, inp.oldMap[j], inp.cleanedOld[j])),
              Some(Expose(inp.w, inp.newMap[i], inp.cleanedNew[i])), cl.value))
      && (UpsertAt(inp, i).err.Some? <==> cl.Failure?)
      && (UpsertAt(inp, i).err.Some? ==> UpsertAt(inp, i).err.value == cl.error)
  {
    IndicesSingle(inp.oldMap, j);
  }

  /** An old resource yields a removal record (pre side set, no post side,
      empty changelog, tagged as an update) exactly when the new map lacks its
      id. */
  lemma RemovalIffAbsent(inp: Inputs, k: int)
    requires Valid(inp) && 0 <= k < |inp.oldMap|
    ensures RemovalAt(inp, k).Some? <==> !HasId(inp.newMap, CurId(inp.oldMap[k]))
    ensures RemovalAt(inp, k).Some? ==>
      RemovalAt(inp, k).value == ResourceDiff(Update, Some(Expose(inp.w, inp.oldMap[k], inp.cleanedOld[k])), None, [])
  {
    LookupAbsent(inp.newMap, CurId(inp.oldMap[k]));
  }

  // ---------------------------------------------------------------------------
  // The record lists, whatever the visits decide

  /** Every record a visit produces is in the list: a failing pair does not
      stop the later visits. */
  lemma {:induction false} UpsertIncluded(ss: seq<Step>, n: int, i: int)
    requires 0 <= i < n <= |ss| && ss[i].record.Some?
    ensures ss[i].record.value in Upserts(ss, n)
    decreases n
  {
    if i < n - 1 {
      UpsertIncluded(ss, n - 1, i);
    }
  }

  /** Every listed record comes from some visit. */
  lemma {:induction false} UpsertSource(ss: seq<Step>, n: int, k: int) returns (i: int)
    requires 0 <= n <= |ss| && 0 <= k < |Upserts(ss, n)|
    ensures 0 <= i < n && ss[i].record == Some(Upserts(ss, n)[k])
    decreases n
  {
    if k < |Upserts(ss, n - 1)| {
      i := UpsertSource(ss, n - 1, k);
    } else {
      i := n - 1;
    }
  }

  /** Every failing visit has its error listed. */
  lemma {:induction false} ErrorIncluded(ss: seq<Step>, n: int, i: int)
    requires 0 <= i < n <= |ss| && ss[i].err.Some?
    ensures ss[i].err.value in UpsertErrors(ss, n)
    decreases n
  {
    if i < n - 1 {
      ErrorIncluded(ss, n - 1, i);
    }
  }

  /** Every listed error comes from some failing visit. */
  lemma {:induction false} ErrorSource(ss: seq<Step>, n: int, k: int) returns (i: int)
    requires 0 <= n <= |ss| && 0 <= k < |UpsertErrors(ss, n)|
    ensures 0 <= i < n && ss[i].err == Some(UpsertErrors(ss, n)[k])
    decreases n
  {
    if k < |UpsertErrors(ss, n - 1)| {
      i := ErrorSource(ss, n - 1, k);
    } else {
      i := n - 1;
    }
  }

  /** Every listed removal comes from some old resource. */
  lemma {:induction false} RemovalSource(rs: seq<Option<ResourceDiff>>, n: int, k: int) returns (i: int)
    requires 0 <= n <= |rs| && 0 <= k < |Removals(rs, n)|
    ensures 0 <= i < n && rs[i] == Some(Removals(rs, n)[k])
    decreases n
  {
    if k < |Removals(rs, n - 1)| {
      i := RemovalSource(rs, n - 1, k);
    } else {
      i := n - 1;
    }
  }

  /** Visits that produce nothing leave both lists empty. */
  lemma {:induction false} UpsertsQuiet(ss: seq<Step>, n: int)
    requires 0 <= n <= |ss|
    requires forall i :: 0 <= i < n ==> ss[i] == Step(None, None)
    ensures Upserts(ss, n) == [] && UpsertErrors(ss, n) == []
    decreases n
  {
    if n > 0 {
      UpsertsQuiet(ss, n - 1);
    }
  }

  lemma {:induction false} RemovalsQuiet(rs: seq<Option<ResourceDiff>>, n: int)
    requires 0 <= n <= |rs|
    requires forall k :: 0 <= k < n ==> rs[k].None?
    ensures Removals(rs, n) == []
    decreases n
  {
    if n > 0 {
      RemovalsQuiet(rs, n - 1);
    }
  }

  /** When every visit produces a record, the list holds them one for one,
      in order, and no error. */
  lemma {:induction false} AllRecorded(ss: seq<Step>, n: int, i: int)
    requires 0 <= i < n <= |ss|
    requires forall i' :: 0 <= i' < n ==> ss[i'].record.Some? && ss[i'].err.None?
    ensures |Upserts(ss, n)| == n && UpsertErrors(ss, n) == []
    ensures Upserts(ss, n)[i] == ss[i].record.value
    decreases n
  {
    if i < n - 1 {
      AllRecorded(ss, n - 1, i);
    } else if n > 1 {
      AllRecorded(ss, n - 1, 0);
    }
  }

  /** When every old resource is removed, the list holds the removals one for
      one, in order. */
  lemma {:induction false} AllRemoved(rs: seq<Option<ResourceDiff>>, n: int, k: int)
    requires 0 <= k < n <= |rs|
    requires forall k' :: 0 <= k' < n ==> rs[k'].Some?
    ensures |Removals(rs, n)| == n
    ensures Removals(rs, n)[k] == rs[k].value
    decreases n
  {
    if k < n - 1 {
      AllRemoved(rs, n - 1, k);
    } else if n > 1 {
      AllRemoved(rs, n - 1, 0);
    }
  }

  // ---------------------------------------------------------------------------
  // Whole-map consequences

  /** The record list holds the creations and updates first, all with a post
      side, then the removals, none with a post side and all tagged as
      updates with an empty changelog. */
  lemma RecordsOrder(inp: Inputs, k: int)
    requires Shaped(inp) && 0 <= k < |Records(inp)|
    ensures Records(inp)[k].post.Some? <==> k < |AllUpserts(inp)|
    ensures Records(inp)[k].post.None? ==>
      Records(inp)[k].typ == Update && Records(inp)[k].pre.Some? && Records(inp)[k].diff == []
  {
    var u := AllUpserts(inp);
    var rm := Removals(RemovalSteps(inp), |inp.oldMap|);
    if k < |u| {
      var i := UpsertSource(Steps(inp), |inp.newMap|, k);
      assert Records(inp)[k] == UpsertAt(inp, i).record.value by {
        assert Records(inp)[k] == u[k];
        assert Steps(inp)[i] == UpsertAt(inp, i);
      }
    } else {
      var i := RemovalSource(RemovalSteps(inp), |inp.oldMap|, k - |u|);
      assert Records(inp)[k] == RemovalAt(inp, i).value by {
        assert Records(inp)[k] == rm[k - |u|];
        assert RemovalSteps(inp)[i] == RemovalAt(inp, i);
      }
    }
  }

  /** Every record and every error of a visit reaches the outcome. */
  lemma VisitReported(inp: Inputs, i: int)
    requires Shaped(inp) && 0 <= i < |inp.newMap|
    ensures UpsertAt(inp, i).record.Some? ==> UpsertAt(inp, i).record.value in Records(inp)
    ensures UpsertAt(inp, i).err.Some? ==> UpsertAt(inp, i).err.value in AllErrors(inp)
  {
    var ss := Steps(inp);
    assert ss[i] == UpsertAt(inp, i);
    if ss[i].record.Some? {
      UpsertIncluded(ss, |ss|, i);
    }
    if ss[i].err.Some? {
      ErrorIncluded(ss, |ss|, i);
    }
  }

  /** Diffing a map against itself, with a structural diff that finds no
      change between a resource and itself, yields no record and no error. */
  lemma IdenticalMapsNoDiff(inp: Inputs)
    requires Valid(inp) && inp.oldMap == inp.newMap
    requires forall k :: 0 <= k < |inp.oldMap| ==> inp.sd(inp.oldMap[k], inp.oldMap[k]) == Success([])
    ensures Records(inp) == [] && AllErrors(inp) == []
  {
    var ss, rs := Steps(inp), RemovalSteps(inp);
    forall i | 0 <= i < |inp.newMap|
      ensures ss[i] == Step(None, None) && rs[i].None?
    {
      UpdateIffChanged(inp, i, i);
      RemovalIffAbsent(inp, i);
    }
    UpsertsQuiet(ss, |ss|);
    RemovalsQuiet(rs, |rs|);
  }

  /** Against an empty new map, every old resource is reported as removed,
      in the old map's order, exposing its clean copy, and nothing fails. */
  lemma EmptyNewRemovesAll(inp: Inputs)
    requires Valid(inp) && inp.newMap == []
    ensures AllErrors(inp) == [] && |Records(inp)| == |inp.oldMap|
    ensures forall k :: 0 <= k < |inp.oldMap| ==>
      Records(inp)[k] == ResourceDiff(Update, Some(Expose(inp.w, inp.oldMap[k], inp.cleanedOld[k])), None, [])
  {
    var o := inp.oldMap;
    var rs := RemovalSteps(inp);
    var ds := Removals(rs, |o|);
    assert AllErrors(inp) == [] && Records(inp) == ds by {
      assert AllUpserts(inp) == [];
      assert Records(inp) == [] + ds;
    }
    RemovesEverywhere(inp);
    forall k | 0 <= k < |o|
      ensures |ds| == |o| && ds[k] == rs[k].value
    {
      AllRemoved(rs, |o|, k);
    }
    if o != [] {
      AllRemoved(rs, |o|, 0);
    }
  }

  /** Against an empty new map, the visit of every old resource is a removal. */
  lemma RemovesEverywhere(inp: Inputs)
    requires Valid(inp) && inp.newMap == []
    ensures forall k :: 0 <= k < |inp.oldMap| ==>
      RemovalSteps(inp)[k] == Some(ResourceDiff(Update, Some(Expose(inp.w, inp.oldMap[k], inp.cleanedOld[k])), None, []))
  {
    forall k | 0 <= k < |inp.oldMap|
      ensures RemovalSteps(inp)[k] == Some(ResourceDiff(Update, Some(Expose(inp.w, inp.oldMap[k], inp.cleanedOld[k])), None, []))
    {
      RemovalIffAbsent(inp, k);
    }
  }

  /** Against an empty old map, the visit of every new resource is a creation. */
  lemma CreatesEverywhere(inp: Inputs)
    requires Valid(inp) && inp.oldMap == []
    ensures forall i :: 0 <= i < |inp.newMap| ==>
      Steps(inp)[i] == Step(Some(ResourceDiff(Create, None, Some(Expose(inp.w, inp.newMap[i], inp.cleanedNew[i])), [])), None)
  {
    forall i | 0 <= i < |inp.newMap|
      ensures Steps(inp)[i] == Step(Some(ResourceDiff(Create, None, Some(Expose(inp.w, inp.newMap[i], inp.cleanedNew[i])), [])), None)
    {
      CreateIffAbsent(inp, i);
    }
  }

  /** Against an empty old map, every new resource is reported as created,
      in the new map's order, exposing its clean copy, and nothing fails. */
  lemma EmptyOldCreatesAll(inp: Inputs)
    requires Valid(inp) && inp.oldMap == []
    ensures AllErrors(inp) == [] && |Records(inp)| == |inp.newMap|
    ensures forall i :: 0 <= i < |inp.newMap| ==>
      Records(inp)[i] == ResourceDiff(Create, None, Some(Expose(inp.w, inp.newMap[i], inp.cleanedNew[i])), [])
  {
    var n := inp.newMap;
    var ss := Steps(inp);
    var ds := Upserts(ss, |n|);
    assert AllErrors(inp) == UpsertErrors(ss, |n|) && Records(inp) == ds by {
      assert Removals(RemovalSteps(inp), 0) == [];
      assert Records(inp) == ds + [];
    }
    CreatesEverywhere(inp);
    forall i | 0 <= i < |n|
      ensures |ds| == |n| && ds[i] == ss[i].record.value
    {
      AllRecorded(ss, |n|, i);
    }
    if n == [] {
      assert UpsertErrors(ss, 0) == [];
    } else {
      AllRecorded(ss, |n|, 0);
    }
  }

  /** A nil (or empty) post map never errors: every old resource is reported
      as removed, in the old map's order, exposing its clean copy. */
  lemma NilNewMapRemovesAll(oldRm: Option<seq<KubeObject>>, sd: StructuralDiff, c: Cleaner, w: Wrapping)
    requires ValidMap(oldRm) && IdPreserving(c) && CleanResmap(OrEmpty(oldRm), c).Success?
    ensures var r := DiffMaps(oldRm, None, sd, c, w);
      var o := OrEmpty(oldRm);
      var co := CleanResmap(o, c).value;
      && r.err.None? && r.diff.Some? && |r.diff.value| == |o|
      && (forall k :: 0 <= k < |o| ==> r.diff.value[k] == ResourceDiff(Update, Some(Expose(w, o[k], co[k])), None, []))
  {
    CleanKeepsIds(OrEmpty(oldRm), c);
    assert CleanResmap([], c) == Success([]);
    var inp := InputsOf(oldRm, None, sd, c, w);
    assert Valid(inp);
    EmptyNewRemovesAll(inp);
  }

  /** A nil (or empty) pre map never errors: every new resource is reported
      as created, in the new map's order, exposing its clean copy. */
  lemma NilOldMapCreatesAll(newRm: Option<seq<KubeObject>>, sd: StructuralDiff, c: Cleaner, w: Wrapping)
    requires ValidMap(newRm) && IdPreserving(c) && CleanResmap(OrEmpty(newRm), c).Success?
    ensures var r := DiffMaps(None, newRm, sd, c, w);
      var n := OrEmpty(newRm);
      var cn := CleanResmap(n, c).value;
      && r.err.None? && r.diff.Some? && |r.diff.value| == |n|
      && (forall i :: 0 <= i < |n| ==> r.diff.value[i] == ResourceDiff(Create, None, Some(Expose(w, n[i], cn[i])), []))
  {
    CleanKeepsIds(OrEmpty(newRm), c);
    assert CleanResmap([], c) == Success([]);
    var inp := InputsOf(None, newRm, sd, c, w);
    assert Valid(inp);
    EmptyOldCreatesAll(inp);
  }

  /** The returned error, read back with the round trip of `errors.Join`, is
      exactly the list of structural-diff failures, in visiting order. */
  lemma DiffMapsErrors(oldRm: Option<seq<KubeObject>>, newRm: Option<seq<KubeObject>>, sd: StructuralDiff, c: Cleaner, w: Wrapping)
    requires CleanResmap(OrEmpty(oldRm), c).Success? && CleanResmap(OrEmpty(newRm), c).Success?
    ensures Unjoin(DiffMaps(oldRm, newRm, sd, c, w).err) == AllErrors(InputsOf(oldRm, newRm, sd, c, w))
  {
    JoinAllRoundTrip(AllErrors(InputsOf(oldRm, newRm, sd, c, w)));
  }
}
