/** The plan normalizer of the orchestrator: each raw plan record becomes a
    descriptor with every field filled in (a default where the record lacks
    it), and the descriptors are stably sorted by key. */
module Normalizer {
  import opened Wrappers
  import opened Ordering
  import opened Sorting
  import opened Bamboo

  /** A normalized plan. `original` is the raw record it was made from. */
  datatype Descriptor = Descriptor(
    key: string,
    name: string,
    enabled: bool,
    shortName: string,
    projectKey: string,
    projectName: string,
    description: string,
    isActive: bool,
    isBuilding: bool,
    averageBuildTimeInSeconds: int,
    link: string,
    original: RawPlan)

  /** The plan list of a listing: `raw.get('plans', {}).get('plan', [])`. */
  function PlanRecords(raw: RawListing): seq<RawPlan> {
    match raw.plans
    case None => []
    case Some(block) => block.plan.GetOr([])
  }

  /** One plan record as a descriptor, with the defaults of the normalizer. */
  function Describe(p: RawPlan): (d: Descriptor)
    ensures d.original == p
  {
    Descriptor(
      p.key.GetOr("UNKNOWN"),
      p.name.GetOr("Unknown Plan"),
      p.enabled.GetOr(false),
      p.shortName.GetOr(""),
      p.projectKey.GetOr(""),
      p.projectName.GetOr(""),
      p.description.GetOr(""),
      p.isActive.GetOr(false),
      p.isBuilding.GetOr(false),
      p.averageBuildTimeInSeconds.GetOr(0),
      match p.link { case None => "" case Some(l) => l.href.GetOr("") },
      p)
  }

  function KeyOf(d: Descriptor): string {
    d.key
  }

  function Described(ps: seq<RawPlan>): (ds: seq<Descriptor>)
    ensures |ds| == |ps|
    ensures forall i :: 0 <= i < |ps| ==> ds[i].original == ps[i]
  {
    seq(|ps|, i requires 0 <= i < |ps| => Describe(ps[i]))
  }

  function Originals(ds: seq<Descriptor>): (ps: seq<RawPlan>)
    ensures |ps| == |ds|
  {
    seq(|ds|, i requires 0 <= i < |ds| => ds[i].original)
  }

  /** `_normalize_bamboo_plans` on a list of plan records. */
  function NormalizePlans(ps: seq<RawPlan>): seq<Descriptor> {
    Sort(Described(ps), KeyOf, StrLe)
  }

  /** `_normalize_bamboo_plans(raw)`. */
  function Normalize(raw: RawListing): seq<Descriptor> {
    NormalizePlans(PlanRecords(raw))
  }

  /** A record without any field gets every default. */
  lemma DescribeDefaults()
    ensures Describe(RawPlan(None, None, None, None, None, None, None, None, None, None, None, None))
         == Descriptor("UNKNOWN", "Unknown Plan", false, "", "", "", "", false, false, 0, "",
                       RawPlan(None, None, None, None, None, None, None, None, None, None, None, None))
  {
  }

  /** A link object without `href` gives the empty link. */
  lemma DescribeLinkWithoutHref(p: RawPlan)
    requires p.link == Some(Link(None))
    ensures Describe(p).link == ""
  {
  }

  /** A field the record does carry is copied unchanged. */
  lemma DescribeKeepsPresent(p: RawPlan)
    ensures p.key.Some? ==> Describe(p).key == p.key.value
    ensures p.name.Some? ==> Describe(p).name == p.name.value
    ensures p.enabled.Some? ==> Describe(p).enabled == p.enabled.value
    ensures p.shortName.Some? ==> Describe(p).shortName == p.shortName.value
    ensures p.projectKey.Some? ==> Describe(p).projectKey == p.projectKey.value
    ensures p.projectName.Some? ==> Describe(p).projectName == p.projectName.value
    ensures p.description.Some? ==> Describe(p).description == p.description.value
    ensures p.isActive.Some? ==> Describe(p).isActive == p.isActive.value
    ensures p.isBuilding.Some? ==> Describe(p).isBuilding == p.isBuilding.value
    ensures p.averageBuildTimeInSeconds.Some? ==>
      Describe(p).averageBuildTimeInSeconds == p.averageBuildTimeInSeconds.value
    ensures p.link.Some? && p.link.value.href.Some? ==> Describe(p).link == p.link.value.href.value
  {
  }

  /** A field the record lacks gets its default, whatever the other fields
      hold. */
  lemma DescribeAbsentDefaults(p: RawPlan)
    ensures p.key.None? ==> Describe(p).key == "UNKNOWN"
    ensures p.name.None? ==> Describe(p).name == "Unknown Plan"
    ensures p.enabled.None? ==> !Describe(p).enabled
    ensures p.shortName.None? ==> Describe(p).shortName == ""
    ensures p.projectKey.None? ==> Describe(p).projectKey == ""
    ensures p.projectName.None? ==> Describe(p).projectName == ""
    ensures p.description.None? ==> Describe(p).description == ""
    ensures p.isActive.None? ==> !Describe(p).isActive
    ensures p.isBuilding.None? ==> !Describe(p).isBuilding
    ensures p.averageBuildTimeInSeconds.None? ==> Describe(p).averageBuildTimeInSeconds == 0
    ensures p.link.None? ==> Describe(p).link == ""
  {
  }

  /** Normalization yields one descriptor per plan record, a permutation of
      their descriptions, sorted by key, with plans of equal key in their
      listing order. */
  lemma NormalizeSpec(ps: seq<RawPlan>)
    ensures |NormalizePlans(ps)| == |ps|
    ensures multiset(NormalizePlans(ps)) == multiset(Described(ps))
    ensures SortedBy(NormalizePlans(ps), KeyOf, StrLe)
    ensures forall k :: WithKey(NormalizePlans(ps), KeyOf, k) == WithKey(Described(ps), KeyOf, k)
    ensures forall i :: 0 <= i < |NormalizePlans(ps)| ==>
      NormalizePlans(ps)[i].original in ps && NormalizePlans(ps)[i] == Describe(NormalizePlans(ps)[i].original)
  {
    StrLeTotalOrder();
    SortSorted(Described(ps), KeyOf, StrLe);
    forall k ensures WithKey(NormalizePlans(ps), KeyOf, k) == WithKey(Described(ps), KeyOf, k) {
      SortStable(Described(ps), KeyOf, StrLe, k);
    }
    var r := NormalizePlans(ps);
    forall i | 0 <= i < |r|
      ensures r[i].original in ps && r[i] == Describe(r[i].original)
    {
      assert r[i] in multiset(Described(ps));
      var j :| 0 <= j < |ps| && Described(ps)[j] == r[i];
    }
  }

  /** Normalizing the records of a normalized list gives the same list. */
  lemma NormalizeIdempotent(ps: seq<RawPlan>)
    ensures NormalizePlans(Originals(NormalizePlans(ps))) == NormalizePlans(ps)
  {
    var r := NormalizePlans(ps);
    NormalizeSpec(ps);
    assert Described(Originals(r)) == r;
    SortOfSorted(r, KeyOf, StrLe);
  }

  lemma FixtureDescribedKeys()
    ensures |Described(FixturePlans())| == 3
    ensures Described(FixturePlans())[0].key == "PROJ-PLAN1"
    ensures Described(FixturePlans())[1].key == "PROJ-PLAN2"
    ensures Described(FixturePlans())[2].key == "PROJ-PLAN3"
  {
    FixtureFlags();
  }

  /** Records already in key order are left in place. */
  lemma NormalizeOrdered(ps: seq<RawPlan>)
    requires forall i, j :: 0 <= i < j < |ps| ==> StrLe(Describe(ps[i]).key, Describe(ps[j]).key)
    ensures NormalizePlans(ps) == Described(ps)
  {
    SortOfSorted(Described(ps), KeyOf, StrLe);
  }

  /** The fixture lists its plans in key order. */
  lemma FixtureInKeyOrder(raw: RawListing)
    requires raw == GetBambooPlans()
    ensures forall i, j :: 0 <= i < j < |PlanRecords(raw)| ==>
      StrLe(Describe(PlanRecords(raw)[i]).key, Describe(PlanRecords(raw)[j]).key)
  {
    FixtureDescribedKeys();
    FixtureKeysOrdered();
  }

  lemma FixtureKeysOrdered()
    ensures StrLe("PROJ-PLAN1", "PROJ-PLAN2") && StrLe("PROJ-PLAN2", "PROJ-PLAN3")
    ensures StrLe("PROJ-PLAN1", "PROJ-PLAN3")
  {
  }

  /** On the fixture the order is PLAN1, PLAN2, PLAN3. */
  lemma NormalizeFixture(raw: RawListing)
    requires raw == GetBambooPlans()
    ensures |Normalize(raw)| == 3
    ensures Normalize(raw)[0].key == "PROJ-PLAN1"
    ensures Normalize(raw)[1].key == "PROJ-PLAN2"
    ensures Normalize(raw)[2].key == "PROJ-PLAN3"
  {
    FixtureInKeyOrder(raw);
    NormalizeOrdered(PlanRecords(raw));
    FixtureDescribedKeys();
  }
}
