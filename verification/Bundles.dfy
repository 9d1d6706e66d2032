/** Campaign bundles: a campaign, an ad group and its ads, created one after the other and read
    back (`ApplyOperation` in internal/sandbox/operations.go, `reconcileBundle` in
    internal/sandbox/operation_readback.go). */
module Bundles {
  import opened Options

  datatype Level = Campaign | AdGroup | Ad
  datatype Entity = Entity(
    level: Level, parent: string, name: string, status: string, budget: string, mode: string, objective: string)

  /** `details` stands for all settings of an ad group, `creative` for all of an ad. */
  datatype CampaignPart = CampaignPart(name: string, objective: string, budget: string, mode: string)
  datatype GroupPart = GroupPart(name: string, budget: string, mode: string, details: string)
  datatype AdPart = AdPart(name: string, creative: string)
  datatype Bundle = Bundle(campaign: CampaignPart, group: GroupPart, ads: seq<AdPart>)
  datatype Creative = Creative(ad: string, creative: string)

  datatype Resource = Resource(kind: Level, id: string)
  datatype Outcome = Acknowledged(resources: seq<Resource>) | Rejected | Partial(resources: seq<Resource>)

  datatype Shop = Shop(
    entities: map<string, Entity>, definitions: map<string, GroupPart>, creatives: map<string, Creative>)

  /** The identifier the n-th creation gets, or none when it is refused. */
  type Creations = nat -> Option<string>

  function CampaignEntity(c: CampaignPart): Entity {
    Entity(Campaign, "", c.name, "DISABLE", c.budget, c.mode, c.objective)
  }

  function GroupEntity(g: GroupPart, parent: string): Entity {
    Entity(AdGroup, parent, g.name, "DISABLE", g.budget, g.mode, "")
  }

  function AdEntity(a: AdPart, parent: string): Entity { Entity(Ad, parent, a.name, "DISABLE", "", "", "") }

  class Backend {
    var entities: map<string, Entity>
    var definitions: map<string, GroupPart>
    var creatives: map<string, Creative>

    function Value(): Shop
      reads this
    {
      Shop(entities, definitions, creatives)
    }

    method ApplyBundle(v: Bundle, created: Creations) returns (r: Outcome)
      modifies this
      ensures (Value(), r) == Applied(old(Value()), v, created)
    {
      var campaign := created(0);
      if campaign.None? { return Rejected; }
      entities := entities[campaign.value := CampaignEntity(v.campaign)];
      var group := created(1);
      if group.None? { return Partial([Resource(Campaign, campaign.value)]); }
      entities := entities[group.value := GroupEntity(v.group, campaign.value)];
      definitions := definitions[group.value := v.group];
      var resources := [Resource(Campaign, campaign.value), Resource(AdGroup, group.value)];
      ghost var start, first := Value(), resources;
      for i := 0 to |v.ads|
        invariant Made(v.ads, created, i)
        invariant Value() == WithAds(start, v.ads, group.value, created, i)
        invariant resources == first + AdResources(v.ads, created, i)
      {
        var ad := created(i + 2);
        if ad.None? { return Partial(resources); }
        entities := entities[ad.value := AdEntity(v.ads[i], group.value)];
        creatives := creatives[ad.value := Creative(ad.value, v.ads[i].creative)];
        resources := resources + [Resource(Ad, ad.value)];
      }
      return Acknowledged(resources);
    }

    /** Whether what was acknowledged is there as requested. */
    method Reconcile(v: Bundle, r: Outcome) returns (done: bool)
      ensures done <==> Stands(Value(), v, r)
    {
      if !r.Acknowledged? || |r.resources| != 2 + |v.ads| { return false; }
      var rs := r.resources;
      if rs[0].kind != Campaign || rs[1].kind != AdGroup { return false; }
      if rs[0].id !in entities || entities[rs[0].id] != CampaignEntity(v.campaign) { return false; }
      if rs[1].id !in entities || entities[rs[1].id] != GroupEntity(v.group, rs[0].id) { return false; }
      if rs[1].id !in definitions || definitions[rs[1].id] != v.group { return false; }
      var seen := {rs[0].id, rs[1].id};
      for i := 0 to |v.ads|
        invariant seen == set k | 0 <= k < i + 2 :: rs[k].id
        invariant forall k | 0 <= k < i :: AdStands(Value(), v.ads[k], rs[1].id, rs[k + 2])
        invariant forall k, m | 0 <= m < k < i + 2 :: rs[m].id != rs[k].id
      {
        if rs[i + 2].kind != Ad {
          assert !AdStands(Value(), v.ads[i], rs[1].id, rs[i + 2]);
          return false;
        }
        if rs[i + 2].id in seen {
          ghost var m :| 0 <= m < i + 2 && rs[m].id == rs[i + 2].id;
          return false;
        }
        seen := seen + {rs[i + 2].id};
        if !AdStands(Value(), v.ads[i], rs[1].id, rs[i + 2]) { return false; }
      }
      return true;
    }
  }

  function Base(s: Shop, v: Bundle, campaign: string, group: string): Shop {
    s.(entities := s.entities[campaign := CampaignEntity(v.campaign)][group := GroupEntity(v.group, campaign)],
       definitions := s.definitions[group := v.group])
  }

  function Heads(campaign: string, group: string): seq<Resource> {
    [Resource(Campaign, campaign), Resource(AdGroup, group)]
  }

  function Applied(s: Shop, v: Bundle, created: Creations): (Shop, Outcome) {
    if created(0).None? then (s, Rejected)
    else
      var campaign := created(0).value;
      if created(1).None? then
        (s.(entities := s.entities[campaign := CampaignEntity(v.campaign)]), Partial([Resource(Campaign, campaign)]))
      else
        var group := created(1).value;
        var n := FirstRefused(created, 0, |v.ads|);
        var all := Heads(campaign, group) + AdResources(v.ads, created, n);
        (WithAds(Base(s, v, campaign, group), v.ads, group, created, n),
         if n == |v.ads| then Acknowledged(all) else Partial(all))
  }

  function FirstRefused(created: Creations, i: nat, n: nat): (k: nat)
    requires i <= n
    ensures i <= k <= n && (forall j | i + 2 <= j < k + 2 :: created(j).Some?) && (k < n ==> created(k + 2).None?)
    decreases n - i
  {
    if i == n || created(i + 2).None? then i else FirstRefused(created, i + 1, n)
  }

  predicate Made(ads: seq<AdPart>, created: Creations, n: nat) {
    n <= |ads| && forall j | 2 <= j < n + 2 :: created(j).Some?
  }

  function WithAds(s: Shop, ads: seq<AdPart>, group: string, created: Creations, n: nat): Shop
    requires Made(ads, created, n)
  {
    if n == 0 then s
    else
      var t, id := WithAds(s, ads, group, created, n - 1), created(n + 1).value;
      t.(entities := t.entities[id := AdEntity(ads[n - 1], group)],
         creatives := t.creatives[id := Creative(id, ads[n - 1].creative)])
  }

  function AdResources(ads: seq<AdPart>, created: Creations, n: nat): (r: seq<Resource>)
    requires Made(ads, created, n)
    ensures |r| == n
  {
    seq(n, i requires 0 <= i < n => Resource(Ad, created(i + 2).value))
  }

  // ----- what reading back means -----

  predicate AdStands(s: Shop, a: AdPart, group: string, r: Resource) {
    && r.kind == Ad && r.id in s.entities && s.entities[r.id] == AdEntity(a, group)
    && r.id in s.creatives && s.creatives[r.id] == Creative(r.id, a.creative)
  }

  /** Everything requested exists once, switched off, below its parent and as requested. */
  predicate Stands(s: Shop, v: Bundle, r: Outcome) {
    && r.Acknowledged? && |r.resources| == 2 + |v.ads|
    && r.resources[0].kind == Campaign && r.resources[1].kind == AdGroup
    && r.resources[0].id in s.entities && s.entities[r.resources[0].id] == CampaignEntity(v.campaign)
    && r.resources[1].id in s.entities && s.entities[r.resources[1].id] == GroupEntity(v.group, r.resources[0].id)
    && r.resources[1].id in s.definitions && s.definitions[r.resources[1].id] == v.group
    && (forall k | 0 <= k < |v.ads| :: AdStands(s, v.ads[k], r.resources[1].id, r.resources[k + 2]))
    && forall k, m | 0 <= m < k < |r.resources| :: r.resources[m].id != r.resources[k].id
  }

  /** What stands is a campaign, an ad group in it and ads in that, all switched off, each with the
      name, money and settings that were asked for. */
  lemma StandsOff(s: Shop, v: Bundle, r: Outcome, k: nat)
    requires Stands(s, v, r) && k < |v.ads|
    ensures var campaign, group, ad := r.resources[0].id, r.resources[1].id, r.resources[k + 2].id;
      && campaign in s.entities && group in s.entities && ad in s.entities
      && s.entities[campaign]
         == Entity(Campaign, "", v.campaign.name, "DISABLE", v.campaign.budget, v.campaign.mode, v.campaign.objective)
      && s.entities[group] == Entity(AdGroup, campaign, v.group.name, "DISABLE", v.group.budget, v.group.mode, "")
      && s.entities[ad] == Entity(Ad, group, v.ads[k].name, "DISABLE", "", "", "")
      && group in s.definitions && s.definitions[group].details == v.group.details
      && ad in s.creatives && s.creatives[ad].creative == v.ads[k].creative
  {
    assert AdStands(s, v.ads[k], r.resources[1].id, r.resources[k + 2]);
  }

  /** Creations never give an identifier twice. */
  ghost predicate Unique(created: Creations) {
    forall i, j | i < j && created(i).Some? && created(j).Some? :: created(i) != created(j)
  }

  lemma {:induction false} AdsStand(s: Shop, ads: seq<AdPart>, group: string, created: Creations, n: nat)
    requires Made(ads, created, n) && Unique(created)
    ensures var t := WithAds(s, ads, group, created, n);
      && (forall k | 0 <= k < n :: AdStands(t, ads[k], group, Resource(Ad, created(k + 2).value)))
      && t.definitions == s.definitions
      && forall i | i < 2 && created(i).Some? ::
        (created(i).value in t.entities <==> created(i).value in s.entities)
        && (created(i).value in s.entities ==> t.entities[created(i).value] == s.entities[created(i).value])
  {
    if n > 0 { AdsStand(s, ads, group, created, n - 1); }
  }

  lemma ResourcesDiffer(ads: seq<AdPart>, created: Creations, n: nat)
    requires Made(ads, created, n) && Unique(created) && created(0).Some? && created(1).Some?
    ensures var rs := Heads(created(0).value, created(1).value) + AdResources(ads, created, n);
      forall k, m | 0 <= m < k < |rs| :: rs[m].id != rs[k].id
  {
    var rs := Heads(created(0).value, created(1).value) + AdResources(ads, created, n);
    forall k, m | 0 <= m < k < |rs| ensures rs[m].id != rs[k].id {
      assert rs[m].id == created(m).value && rs[k].id == created(k).value;
    }
  }

  lemma BundleStands(s: Shop, v: Bundle, created: Creations)
    requires Unique(created) && created(0).Some? && created(1).Some? && Made(v.ads, created, |v.ads|)
    ensures var campaign, group := created(0).value, created(1).value;
      Stands(WithAds(Base(s, v, campaign, group), v.ads, group, created, |v.ads|), v,
             Acknowledged(Heads(campaign, group) + AdResources(v.ads, created, |v.ads|)))
  {
    assert created(0) != created(1);
    AdsStand(Base(s, v, created(0).value, created(1).value), v.ads, created(1).value, created, |v.ads|);
    ResourcesDiffer(v.ads, created, |v.ads|);
  }

  function Named(r: Outcome): seq<Resource> {
    match r
    case Acknowledged(resources) => resources
    case Partial(resources) => resources
    case Rejected => []
  }

  predicate Unnamed(rs: seq<Resource>, id: string) { forall r | r in rs :: r.id != id }

  predicate SameEntry<T(==)>(a: map<string, T>, b: map<string, T>, id: string) {
    (id in a <==> id in b) && (id in a ==> a[id] == b[id])
  }

  /** Both shops have the same under this identifier. */
  predicate SameAt(s: Shop, t: Shop, id: string) {
    && SameEntry(s.entities, t.entities, id) && SameEntry(s.definitions, t.definitions, id)
    && SameEntry(s.creatives, t.creatives, id)
  }

  lemma {:induction false} AdsUntouched(s: Shop, ads: seq<AdPart>, group: string, created: Creations,
                                        n: nat, id: string)
    requires Made(ads, created, n) && Unnamed(AdResources(ads, created, n), id)
    ensures SameAt(s, WithAds(s, ads, group, created, n), id)
  {
    if n > 0 {
      var rs := AdResources(ads, created, n);
      assert AdResources(ads, created, n - 1) == rs[..n - 1];
      AdsUntouched(s, ads, group, created, n - 1, id);
      assert rs[n - 1] in rs;
    }
  }

  /** However far a bundle gets, what its outcome does not name is as it was. */
  lemma BundleUntouched(s: Shop, v: Bundle, created: Creations, id: string)
    requires Unnamed(Named(Applied(s, v, created).1), id)
    ensures SameAt(s, Applied(s, v, created).0, id)
  {
    var rs := Named(Applied(s, v, created).1);
    if created(0).Some? {
      assert rs[0] in rs;
      if created(1).Some? {
        assert rs[1] in rs;
        var n := FirstRefused(created, 0, |v.ads|);
        assert AdResources(v.ads, created, n) == rs[2..];
        AdsUntouched(Base(s, v, created(0).value, created(1).value), v.ads, created(1).value, created, n, id);
      }
    }
  }

  /** A bundle is acknowledged when nothing was refused, and then reads back as done. */
  lemma BundleRoundTrip(s: Shop, v: Bundle, created: Creations)
    requires Unique(created)
    ensures var (t, r) := Applied(s, v, created);
      && (r.Acknowledged? ==> Stands(t, v, r))
      && (r.Acknowledged? <==> forall i | 0 <= i < |v.ads| + 2 :: created(i).Some?)
  {
    if created(0).Some? && created(1).Some? && FirstRefused(created, 0, |v.ads|) == |v.ads| {
      BundleStands(s, v, created);
    }
  }
}
