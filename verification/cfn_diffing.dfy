/** What the two CloudFormation engines (cloudformation.go and
    cloudformation_differ.go) share: `cfnDiffResource`, the wrapping of a
    template resource, and the scan of a template's resources. A scan visits
    the names of a Go map in the order the runtime picks, which is a
    parameter here: any enumeration of the keys without repetition. The first
    failing visit aborts the scan. */
module CfnDiffing {
  import opened Base
  import opened CfnResources
  import opened ResourceDiffs

  /** The foreign steps of `cfnDiffResource`: YAML encoding of a resource
      (`None` is a nil interface), YAML decoding into a generic mapping, and
      the r3labs structural diff. */
  datatype CfnCodec = CfnCodec(
    marshal: Option<CfnRes> -> Result<string>,
    unmarshal: string -> Result<map<string, Json>>,
    structural: (map<string, Json>, map<string, Json>) -> Result<Changelog>)

  /** `cfnDiffResource`: both resources are encoded and decoded, then diffed;
      the first failing step ends it with that step's wrapped error. */
  function CfnDiffResource(codec: CfnCodec, a: Option<CfnRes>, b: Option<CfnRes>): (r: Result<Changelog>)
    ensures r.Success? <==>
      && codec.marshal(a).Success? && codec.marshal(b).Success?
      && codec.unmarshal(codec.marshal(a).value).Success? && codec.unmarshal(codec.marshal(b).value).Success?
      && codec.structural(codec.unmarshal(codec.marshal(a).value).value, codec.unmarshal(codec.marshal(b).value).value).Success?
    ensures r.Success? ==>
      r == codec.structural(codec.unmarshal(codec.marshal(a).value).value, codec.unmarshal(codec.marshal(b).value).value)
    ensures codec.marshal(a).Failure? ==> r == Failure(Wrap("unable to render original resource as yaml - ", codec.marshal(a).error))
    ensures codec.marshal(a).Success? && codec.marshal(b).Failure? ==>
      r == Failure(Wrap("unabel to render new resource as yaml - ", codec.marshal(b).error))
    ensures codec.marshal(a).Success? && codec.marshal(b).Success? && codec.unmarshal(codec.marshal(a).value).Failure? ==>
      r == Failure(Wrap("unable to parse yaml for item a - ", codec.unmarshal(codec.marshal(a).value).error))
    ensures (codec.marshal(a).Success? && codec.marshal(b).Success? && codec.unmarshal(codec.marshal(a).value).Success?
             && codec.unmarshal(codec.marshal(b).value).Failure?) ==>
      r == Failure(Wrap("unable to parse yaml for item b - ", codec.unmarshal(codec.marshal(b).value).error))
    ensures (codec.marshal(a).Success? && codec.marshal(b).Success? && codec.unmarshal(codec.marshal(a).value).Success?
             && codec.unmarshal(codec.marshal(b).value).Success? && r.Failure?) ==>
      r == codec.structural(codec.unmarshal(codec.marshal(a).value).value, codec.unmarshal(codec.marshal(b).value).value)
  {
    match codec.marshal(a)
    case Failure(e) => Failure(Wrap("unable to render original resource as yaml - ", e))
    case Success(aYaml) =>
      match codec.marshal(b)
      case Failure(e) => Failure(Wrap("unabel to render new resource as yaml - ", e))
      case Success(bYaml) =>
        match codec.unmarshal(aYaml)
        case Failure(e) => Failure(Wrap("unable to parse yaml for item a - ", e))
        case Success(aObj) =>
          match codec.unmarshal(bYaml)
          case Failure(e) => Failure(Wrap("unable to parse yaml for item b - ", e))
          case Success(bObj) => codec.structural(aObj, bObj)
  }

  /** The wrapper of a named template resource. */
  function Expose(name: string, res: CfnRes): Resource {
    CloudformationRes(CloudformationResource(name, res))
  }

  /** The resources of a (possibly nil) template. */
  function ResourcesOf(t: Option<Template>): map<string, CfnRes> {
    if t.Some? then t.value.resources else map[]
  }

  /** `order` enumerates the keys of `m`, each once. */
  predicate IsOrder(order: seq<string>, m: map<string, CfnRes>) {
    && (forall i, j :: 0 <= i < j < |order| ==> order[i] != order[j])
    && (forall i :: 0 <= i < |order| ==> order[i] in m)
    && (forall k :: k in m ==> k in order)
  }

  /** An enumeration has as many entries as the map has keys. */
  lemma {:induction false} OrderSize(order: seq<string>, m: map<string, CfnRes>)
    requires IsOrder(order, m)
    ensures |order| == |m.Keys|
  {
    var s := set i | 0 <= i < |order| :: order[i];
    assert s == m.Keys;
    SetOfDistinct(order);
  }

  lemma {:induction false} SetOfDistinct(order: seq<string>)
    requires forall i, j :: 0 <= i < j < |order| ==> order[i] != order[j]
    ensures |set i | 0 <= i < |order| :: order[i]| == |order|
    decreases |order|
  {
    if order != [] {
      var init := order[..|order| - 1];
      SetOfDistinct(init);
      var s := set i | 0 <= i < |order| :: order[i];
      var t := set i | 0 <= i < |init| :: init[i];
      assert s == t + {order[|order| - 1]};
      assert order[|order| - 1] !in t;
    }
  }

  /** Every resource of `m`, wrapped, in the first `n` positions of `order`. */
  function AllExposed(m: map<string, CfnRes>, order: seq<string>, n: int): (r: seq<Resource>)
    requires 0 <= n <= |order| && forall i :: 0 <= i < |order| ==> order[i] in m
    ensures |r| == n
    decreases n
  {
    if n == 0 then [] else AllExposed(m, order, n - 1) + [Expose(order[n - 1], m[order[n - 1]])]
  }

  /** The wrapped list holds each visited resource at its visiting position;
      with a full enumeration it holds every resource of the map. */
  lemma {:induction false} AllExposedAt(m: map<string, CfnRes>, order: seq<string>, n: int, k: int)
    requires 0 <= k < n <= |order| && forall i :: 0 <= i < |order| ==> order[i] in m
    ensures AllExposed(m, order, n)[k] == Expose(order[k], m[order[k]])
    decreases n
  {
    if k < n - 1 {
      AllExposedAt(m, order, n - 1, k);
    }
  }

  /** Over a full enumeration, the wrapped list holds exactly the map's
      resources, as many as the map has keys. */
  lemma AllExposedMembers(m: map<string, CfnRes>, order: seq<string>)
    requires IsOrder(order, m)
    ensures |AllExposed(m, order, |order|)| == |m.Keys|
    ensures forall r :: r in AllExposed(m, order, |order|) <==> exists name :: name in m && r == Expose(name, m[name])
  {
    OrderSize(order, m);
    var all := AllExposed(m, order, |order|);
    forall r | r in all
      ensures exists name :: name in m && r == Expose(name, m[name])
    {
      var k :| 0 <= k < |all| && all[k] == r;
      AllExposedAt(m, order, |order|, k);
    }
    forall name | name in m
      ensures Expose(name, m[name]) in all
    {
      var i :| 0 <= i < |order| && order[i] == name;
      AllExposedAt(m, order, |order|, i);
    }
  }

  // ---------------------------------------------------------------------------
  // Scans

  /** What visiting one name yields: an error, a record, or nothing. */
  type Visit = Result<Option<ResourceDiff>>

  /** The records of the first `n` visits, or the first error among them. */
  function Scan(vs: seq<Visit>, n: int): Result<seq<ResourceDiff>>
    requires 0 <= n <= |vs|
    decreases n
  {
    if n == 0 then Success([])
    else match Scan(vs, n - 1)
      case Failure(e) => Failure(e)
      case Success(acc) =>
        match vs[n - 1]
        case Failure(e) => Failure(e)
        case Success(o) => Success(acc + OptSeq(o))
  }

  /** Once a scan has failed, visiting more names changes nothing. */
  lemma {:induction false} ScanStaysFailed(vs: seq<Visit>, m: int, n: int)
    requires 0 <= m <= n <= |vs| && Scan(vs, m).Failure?
    ensures Scan(vs, n) == Scan(vs, m)
    decreases n
  {
    if n > m {
      ScanStaysFailed(vs, m, n - 1);
    }
  }

  /** A failing visit makes the whole scan fail. */
  lemma {:induction false} ScanFailsAt(vs: seq<Visit>, n: int, i: int)
    requires 0 <= i < n <= |vs| && vs[i].Failure?
    ensures Scan(vs, n).Failure?
    decreases n
  {
    if i < n - 1 {
      ScanFailsAt(vs, n - 1, i);
      ScanStaysFailed(vs, n - 1, n);
    }
  }

  /** A failed scan reports the error of one of its visits. */
  lemma {:induction false} ScanFailureSource(vs: seq<Visit>, n: int) returns (i: int)
    requires 0 <= n <= |vs| && Scan(vs, n).Failure?
    ensures 0 <= i < n && vs[i] == Failure(Scan(vs, n).error)
    decreases n
  {
    if Scan(vs, n - 1).Failure? {
      i := ScanFailureSource(vs, n - 1);
    } else {
      i := n - 1;
    }
  }

  /** Every record a visit yields is in a successful scan. */
  lemma {:induction false} ScanIncluded(vs: seq<Visit>, n: int, i: int)
    requires 0 <= i < n <= |vs| && Scan(vs, n).Success?
    requires vs[i].Success? && vs[i].value.Some?
    ensures vs[i].value.value in Scan(vs, n).value
    decreases n
  {
    if i < n - 1 {
      ScanIncluded(vs, n - 1, i);
    }
  }

  /** Every record of a successful scan comes from some visit. */
  lemma {:induction false} ScanSource(vs: seq<Visit>, n: int, k: int) returns (i: int)
    requires 0 <= n <= |vs| && Scan(vs, n).Success? && 0 <= k < |Scan(vs, n).value|
    ensures 0 <= i < n && vs[i] == Success(Some(Scan(vs, n).value[k]))
    decreases n
  {
    var prev := Scan(vs, n - 1).value;
    if k < |prev| {
      i := ScanSource(vs, n - 1, k);
    } else {
      i := n - 1;
    }
  }

  /** When every visit yields a record, a scan holds them one for one. */
  lemma {:induction false} ScanAllRecords(vs: seq<Visit>, n: int)
    requires 0 <= n <= |vs|
    requires forall i :: 0 <= i < n ==> vs[i].Success? && vs[i].value.Some?
    ensures Scan(vs, n).Success? && |Scan(vs, n).value| == n
    decreases n
  {
    if n > 0 {
      ScanAllRecords(vs, n - 1);
    }
  }

  /** A successful visit extends a successful scan by its record. */
  lemma ScanStep(vs: seq<Visit>, i: int, acc: seq<ResourceDiff>)
    requires 0 <= i < |vs| && Scan(vs, i) == Success(acc) && vs[i].Success?
    ensures Scan(vs, i + 1) == Success(acc + OptSeq(vs[i].value))
  {
  }

  /** Visiting one more name appends its wrapped resource. */
  lemma AllExposedStep(m: map<string, CfnRes>, order: seq<string>, n: int)
    requires 0 <= n < |order| && forall i :: 0 <= i < |order| ==> order[i] in m
    ensures AllExposed(m, order, n + 1) == AllExposed(m, order, n) + [Expose(order[n], m[order[n]])]
  {
  }

  // ---------------------------------------------------------------------------
  // The two loops of an engine: post resources, then pre resources

  /** The decision an engine takes on one named resource. */
  type VisitFn = (string, CfnRes) -> Visit

  /** The visits of the resources of `m`, in the order `order` lists them. */
  function Visits(f: VisitFn, m: map<string, CfnRes>, order: seq<string>): (vs: seq<Visit>)
    requires forall i :: 0 <= i < |order| ==> order[i] in m
    ensures |vs| == |order|
  {
    seq(|order|, i requires 0 <= i < |order| => f(order[i], m[order[i]]))
  }

  /** The `i`-th visit is the decision on the `i`-th name. */
  lemma VisitsAt(f: VisitFn, m: map<string, CfnRes>, order: seq<string>, i: int)
    requires forall j :: 0 <= j < |order| ==> order[j] in m
    requires 0 <= i < |order|
    ensures Visits(f, m, order)[i] == f(order[i], m[order[i]])
  {
  }

  /** The records of the loop over the post resources followed by those of
      the loop over the pre resources, or the first error. */
  function ScanBoth(fNew: VisitFn, fOld: VisitFn, newRes: map<string, CfnRes>, oldRes: map<string, CfnRes>,
                    newOrder: seq<string>, oldOrder: seq<string>): Result<seq<ResourceDiff>>
    requires IsOrder(newOrder, newRes) && IsOrder(oldOrder, oldRes)
  {
    match Scan(Visits(fNew, newRes, newOrder), |newOrder|)
    case Failure(e) => Failure(e)
    case Success(upserts) =>
      match Scan(Visits(fOld, oldRes, oldOrder), |oldOrder|)
      case Failure(e) => Failure(e)
      case Success(deletes) => Success(upserts + deletes)
  }

  /** In a successful scan every resource is visited without error, and every
      record a visit yields is in the list. */
  lemma BothIncluded(fNew: VisitFn, fOld: VisitFn, newRes: map<string, CfnRes>, oldRes: map<string, CfnRes>,
                     newOrder: seq<string>, oldOrder: seq<string>, name: string)
    requires IsOrder(newOrder, newRes) && IsOrder(oldOrder, oldRes)
    requires ScanBoth(fNew, fOld, newRes, oldRes, newOrder, oldOrder).Success?
    ensures name in newRes ==>
      fNew(name, newRes[name]).Success? &&
      (fNew(name, newRes[name]).value.Some? ==>
         fNew(name, newRes[name]).value.value in ScanBoth(fNew, fOld, newRes, oldRes, newOrder, oldOrder).value)
    ensures name in oldRes ==>
      fOld(name, oldRes[name]).Success? &&
      (fOld(name, oldRes[name]).value.Some? ==>
         fOld(name, oldRes[name]).value.value in ScanBoth(fNew, fOld, newRes, oldRes, newOrder, oldOrder).value)
  {
    var nv, ov := Visits(fNew, newRes, newOrder), Visits(fOld, oldRes, oldOrder);
    var d := ScanBoth(fNew, fOld, newRes, oldRes, newOrder, oldOrder).value;
    assert d == Scan(nv, |newOrder|).value + Scan(ov, |oldOrder|).value;
    if name in newRes {
      var i :| 0 <= i < |newOrder| && newOrder[i] == name;
      assert nv[i] == fNew(name, newRes[name]);
      if nv[i].Failure? {
        ScanFailsAt(nv, |newOrder|, i);
      } else if nv[i].value.Some? {
        ScanIncluded(nv, |newOrder|, i);
      }
    }
    if name in oldRes {
      var k :| 0 <= k < |oldOrder| && oldOrder[k] == name;
      assert ov[k] == fOld(name, oldRes[name]);
      if ov[k].Failure? {
        ScanFailsAt(ov, |oldOrder|, k);
      } else if ov[k].value.Some? {
        ScanIncluded(ov, |oldOrder|, k);
      }
    }
  }

  /** Every record of a successful scan is the record of some post
      resource's visit or of some pre resource's visit. */
  lemma BothSource(fNew: VisitFn, fOld: VisitFn, newRes: map<string, CfnRes>, oldRes: map<string, CfnRes>,
                   newOrder: seq<string>, oldOrder: seq<string>, k: int) returns (name: string)
    requires IsOrder(newOrder, newRes) && IsOrder(oldOrder, oldRes)
    requires ScanBoth(fNew, fOld, newRes, oldRes, newOrder, oldOrder).Success?
    requires 0 <= k < |ScanBoth(fNew, fOld, newRes, oldRes, newOrder, oldOrder).value|
    ensures var rd := ScanBoth(fNew, fOld, newRes, oldRes, newOrder, oldOrder).value[k];
      || (name in newRes && fNew(name, newRes[name]) == Success(Some(rd)))
      || (name in oldRes && fOld(name, oldRes[name]) == Success(Some(rd)))
  {
    var nv, ov := Visits(fNew, newRes, newOrder), Visits(fOld, oldRes, oldOrder);
    var u, dl := Scan(nv, |newOrder|).value, Scan(ov, |oldOrder|).value;
    var d := ScanBoth(fNew, fOld, newRes, oldRes, newOrder, oldOrder).value;
    assert d == u + dl;
    if k < |u| {
      var i := ScanSource(nv, |newOrder|, k);
      name := newOrder[i];
      assert d[k] == u[k];
    } else {
      var i := ScanSource(ov, |oldOrder|, k - |u|);
      name := oldOrder[i];
      assert d[k] == dl[k - |u|];
    }
  }

  /** A failed scan reports the error of some resource's visit. */
  lemma BothFailureSource(fNew: VisitFn, fOld: VisitFn, newRes: map<string, CfnRes>, oldRes: map<string, CfnRes>,
                          newOrder: seq<string>, oldOrder: seq<string>) returns (name: string)
    requires IsOrder(newOrder, newRes) && IsOrder(oldOrder, oldRes)
    requires ScanBoth(fNew, fOld, newRes, oldRes, newOrder, oldOrder).Failure?
    ensures var e := ScanBoth(fNew, fOld, newRes, oldRes, newOrder, oldOrder).error;
      || (name in newRes && fNew(name, newRes[name]) == Failure(e))
      || (name in oldRes && fOld(name, oldRes[name]) == Failure(e))
  {
    var nv, ov := Visits(fNew, newRes, newOrder), Visits(fOld, oldRes, oldOrder);
    if Scan(nv, |newOrder|).Failure? {
      var i := ScanFailureSource(nv, |newOrder|);
      name := newOrder[i];
    } else {
      var k := ScanFailureSource(ov, |oldOrder|);
      name := oldOrder[k];
    }
  }

  /** A scan succeeds exactly when every resource's visit does. */
  lemma BothSucceedsIff(fNew: VisitFn, fOld: VisitFn, newRes: map<string, CfnRes>, oldRes: map<string, CfnRes>,
                        newOrder: seq<string>, oldOrder: seq<string>)
    requires IsOrder(newOrder, newRes) && IsOrder(oldOrder, oldRes)
    ensures ScanBoth(fNew, fOld, newRes, oldRes, newOrder, oldOrder).Success? <==>
      && (forall name :: name in newRes ==> fNew(name, newRes[name]).Success?)
      && (forall name :: name in oldRes ==> fOld(name, oldRes[name]).Success?)
  {
    if ScanBoth(fNew, fOld, newRes, oldRes, newOrder, oldOrder).Success? {
      forall name | name in newRes || name in oldRes
        ensures name in newRes ==> fNew(name, newRes[name]).Success?
        ensures name in oldRes ==> fOld(name, oldRes[name]).Success?
      {
        BothIncluded(fNew, fOld, newRes, oldRes, newOrder, oldOrder, name);
      }
    } else {
      var name := BothFailureSource(fNew, fOld, newRes, oldRes, newOrder, oldOrder);
    }
  }

  /** The visiting order does not matter: whether the scan fails, and the set
      of records it lists, are the same for any two enumerations. */
  lemma BothOrderIrrelevant(fNew: VisitFn, fOld: VisitFn, newRes: map<string, CfnRes>, oldRes: map<string, CfnRes>,
                            newOrder1: seq<string>, oldOrder1: seq<string>, newOrder2: seq<string>, oldOrder2: seq<string>)
    requires IsOrder(newOrder1, newRes) && IsOrder(oldOrder1, oldRes)
    requires IsOrder(newOrder2, newRes) && IsOrder(oldOrder2, oldRes)
    ensures var r1, r2 := ScanBoth(fNew, fOld, newRes, oldRes, newOrder1, oldOrder1), ScanBoth(fNew, fOld, newRes, oldRes, newOrder2, oldOrder2);
      && (r1.Success? <==> r2.Success?)
      && (r1.Success? && r2.Success? ==> forall rd :: rd in r1.value <==> rd in r2.value)
  {
    BothSucceedsIff(fNew, fOld, newRes, oldRes, newOrder1, oldOrder1);
    BothSucceedsIff(fNew, fOld, newRes, oldRes, newOrder2, oldOrder2);
    var r1, r2 := ScanBoth(fNew, fOld, newRes, oldRes, newOrder1, oldOrder1), ScanBoth(fNew, fOld, newRes, oldRes, newOrder2, oldOrder2);
    if r1.Success? && r2.Success? {
      forall rd | rd in r1.value
        ensures rd in r2.value
      {
        var k :| 0 <= k < |r1.value| && r1.value[k] == rd;
        var name := BothSource(fNew, fOld, newRes, oldRes, newOrder1, oldOrder1, k);
        BothIncluded(fNew, fOld, newRes, oldRes, newOrder2, oldOrder2, name);
      }
      forall rd | rd in r2.value
        ensures rd in r1.value
      {
        var k :| 0 <= k < |r2.value| && r2.value[k] == rd;
        var name := BothSource(fNew, fOld, newRes, oldRes, newOrder2, oldOrder2, k);
        BothIncluded(fNew, fOld, newRes, oldRes, newOrder1, oldOrder1, name);
      }
    }
  }
}
