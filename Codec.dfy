/** The JSON form of the typed proposal records, and the check that reads a
    JSON value back as a typed record. Reading back what was written gives the
    same record. */
module Codec {
  import opened Optional
  import opened Json
  import opened Records

  function MilestoneJson(m: Milestone): JValue {
    JObj(map["title" := JStr(m.title), "duration" := JStr(m.duration), "deliverables" := JArr(Strs(m.deliverables))])
  }

  function MilestonesJson(ms: seq<Milestone>): (r: seq<JValue>)
    ensures |r| == |ms| && forall i :: 0 <= i < |ms| ==> r[i] == MilestoneJson(ms[i])
  {
    if ms == [] then [] else [MilestoneJson(ms[0])] + MilestonesJson(ms[1..])
  }

  function TierJson(t: Tier): JValue {
    JObj(map["price" := JStr(t.price), "features" := JArr(Strs(t.features))])
  }

  function PricingJson(p: Pricing): (r: JValue)
    ensures Truthy(r)
  {
    JObj(map["basic" := TierJson(p.basic), "standard" := TierJson(p.standard), "premium" := TierJson(p.premium)])
  }

  /** A JSON string array as strings. */
  function AsStrArray(v: JValue): Option<seq<string>> {
    if v.JArr? then AsStrs(v.items) else None
  }

  /** A JSON value as a milestone, when it has the milestone's shape. */
  function AsMilestone(v: JValue): Option<Milestone> {
    var title := Lookup(v, "title");
    var duration := Lookup(v, "duration");
    var deliverables := AsStrArray(Lookup(v, "deliverables"));
    if v.JObj? && title.JStr? && duration.JStr? && deliverables.Some?
    then Some(Milestone(title.s, duration.s, deliverables.value))
    else None
  }

  lemma MilestoneRoundTrip(m: Milestone)
    ensures AsMilestone(MilestoneJson(m)) == Some(m)
  {
    StrsRoundTrip(m.deliverables);
  }

  function AsMilestones(vs: seq<JValue>): (r: Option<seq<Milestone>>)
    ensures r.Some? ==> |r.value| == |vs|
  {
    if vs == [] then Some([])
    else match (AsMilestone(vs[0]), AsMilestones(vs[1..]))
      case (Some(m), Some(rest)) => Some([m] + rest)
      case _ => None
  }

  lemma {:induction false} MilestonesRoundTrip(ms: seq<Milestone>)
    ensures AsMilestones(MilestonesJson(ms)) == Some(ms)
  {
    if ms != [] {
      var vs := MilestonesJson(ms);
      assert vs[0] == MilestoneJson(ms[0]);
      assert vs[1..] == MilestonesJson(ms[1..]);
      MilestoneRoundTrip(ms[0]);
      MilestonesRoundTrip(ms[1..]);
      assert [ms[0]] + ms[1..] == ms;
    }
  }

  function AsTier(v: JValue): Option<Tier> {
    var price := Lookup(v, "price");
    var features := AsStrArray(Lookup(v, "features"));
    if v.JObj? && price.JStr? && features.Some? then Some(Tier(price.s, features.value)) else None
  }

  function AsPricing(v: JValue): Option<Pricing> {
    match (AsTier(Lookup(v, "basic")), AsTier(Lookup(v, "standard")), AsTier(Lookup(v, "premium")))
    case (Some(b), Some(s), Some(p)) => if v.JObj? then Some(Pricing(b, s, p)) else None
    case _ => None
  }

  lemma TierRoundTrip(t: Tier)
    ensures AsTier(TierJson(t)) == Some(t)
  {
    StrsRoundTrip(t.features);
  }

  lemma PricingRoundTrip(p: Pricing)
    ensures AsPricing(PricingJson(p)) == Some(p)
  {
    var v := PricingJson(p);
    assert Lookup(v, "basic") == TierJson(p.basic);
    assert Lookup(v, "standard") == TierJson(p.standard);
    assert Lookup(v, "premium") == TierJson(p.premium);
    TierRoundTrip(p.basic);
    TierRoundTrip(p.standard);
    TierRoundTrip(p.premium);
  }
}
