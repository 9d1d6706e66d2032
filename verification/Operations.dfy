/** Updates of ad groups and ads: applying them, and reading them back
    (internal/sandbox/operations.go). A decimal is its text, blank when absent. */
module Operations {
  import opened Options
  import opened ReviewLines
  import opened Encodings

  datatype AdGroupSpec = AdGroupSpec(
    id: string, audiences: seq<string>, bid: string, budget: string, excluded: seq<string>, languages: seq<string>,
    locations: seq<string>, placements: seq<string>, end: string, start: string)

  datatype AdSpec = AdSpec(
    id: string, asset: string, assetKind: string, action: string, url: string,
    identity: string, identityType: string, text: string)

  const NO_GROUP := AdGroupSpec("", [], "", "", [], [], [], [], "", "")
  const NO_AD := AdSpec("", "", "", "", "", "", "", "")

  // ----- merging -----

  function Given(given: string, kept: string): string { if given != "" then given else kept }
  function GivenList(given: seq<string>, kept: seq<string>): seq<string> { if given != [] then given else kept }

  function MergeAdGroup(dst: AdGroupSpec, src: AdGroupSpec): AdGroupSpec {
    AdGroupSpec(src.id, GivenList(src.audiences, dst.audiences), Given(src.bid, dst.bid),
                Given(src.budget, dst.budget), GivenList(src.excluded, dst.excluded),
                GivenList(src.languages, dst.languages), GivenList(src.locations, dst.locations),
                GivenList(src.placements, dst.placements), Given(src.end, dst.end), Given(src.start, dst.start))
  }

  /** An identity or an asset comes with its type; a type without its id is ignored. */
  function MergeAd(dst: AdSpec, src: AdSpec): AdSpec {
    AdSpec(src.id, Given(src.asset, dst.asset), if src.asset != "" then src.assetKind else dst.assetKind,
           Given(src.action, dst.action), Given(src.url, dst.url), Given(src.identity, dst.identity),
           if src.identity != "" then src.identityType else dst.identityType, Given(src.text, dst.text))
  }

  // ----- encoding -----

  function GroupFields(v: AdGroupSpec): seq<Field> {
    [Field("ad_group_id", Text(v.id)), Field("audience_ids", Texts(v.audiences)), Field("bid", Text(v.bid)),
     Field("budget", Text(v.budget)), Field("excluded_audience_ids", Texts(v.excluded)),
     Field("languages", Texts(v.languages)), Field("location_ids", Texts(v.locations)),
     Field("placements", Texts(v.placements)), Field("schedule_end", Text(v.end)),
     Field("schedule_start", Text(v.start))]
  }

  function AdFields(v: AdSpec): seq<Field> {
    [Field("ad_id", Text(v.id)), Field("asset_id", Text(v.asset)), Field("asset_kind", Text(v.assetKind)),
     Field("call_to_action", Text(v.action)), Field("destination_url", Text(v.url)),
     Field("identity_id", Text(v.identity)), Field("identity_type", Text(v.identityType)),
     Field("primary_text", Text(v.text))]
  }

  function Request(payload: string, fields: seq<Field>): seq<Field>
    requires fields != []
  {
    [Field(payload, Object(Kept(fields)))]
  }

  predicate ReviewMatches(encode: Json -> string, payload: string, wanted: seq<Field>, current: seq<Field>)
    requires wanted != [] && current != [] && Regular(Request(payload, wanted))
  {
    NoDifference(Visit(encode, Request(payload, wanted), Request(payload, current), ""))
  }

  lemma RequestRegular(payload: string, fields: seq<Field>)
    requires fields != [] && Regular(Kept(fields))
    ensures Regular(Request(payload, fields))
  {}

  /** Everything the request gives is in the current settings. */
  predicate HasGroup(v: AdGroupSpec, c: AdGroupSpec) {
    && c.id == v.id
    && (v.audiences != [] ==> c.audiences == v.audiences) && (v.bid != "" ==> c.bid == v.bid)
    && (v.budget != "" ==> c.budget == v.budget) && (v.excluded != [] ==> c.excluded == v.excluded)
    && (v.languages != [] ==> c.languages == v.languages) && (v.locations != [] ==> c.locations == v.locations)
    && (v.placements != [] ==> c.placements == v.placements) && (v.end != "" ==> c.end == v.end)
    && (v.start != "" ==> c.start == v.start)
  }

  predicate HasAd(v: AdSpec, c: AdSpec) {
    && c.id == v.id
    && (v.asset != "" ==> c.asset == v.asset) && (v.assetKind != "" ==> c.assetKind == v.assetKind)
    && (v.action != "" ==> c.action == v.action) && (v.url != "" ==> c.url == v.url)
    && (v.identity != "" ==> c.identity == v.identity) && (v.identityType != "" ==> c.identityType == v.identityType)
    && (v.text != "" ==> c.text == v.text)
  }

  lemma RequestAgrees(encode: Json -> string, payload: string, a: seq<Field>, b: seq<Field>)
    requires Injective(encode) && Alike(a, b) && a[0].value.Text?
    ensures Regular(Request(payload, a))
    ensures ReviewMatches(encode, payload, a, b) <==> SameWhereGiven(a, b)
  {
    AgreesWhenSame(encode, a, b);
    RequestRegular(payload, a);
    var wanted, current := Request(payload, a), Request(payload, b);
    VisitAgrees(encode, wanted, current, "");
    assert Find(current, payload) == Some(Object(Kept(b)));
    assert wanted[0] == Field(payload, Object(Kept(a)));
  }

  /** The review of an update shows no difference exactly when everything it gives is there. */
  lemma GroupReview(encode: Json -> string, v: AdGroupSpec, c: AdGroupSpec)
    requires Injective(encode)
    ensures Regular(Request("ad_group_update", GroupFields(v)))
    ensures ReviewMatches(encode, "ad_group_update", GroupFields(v), GroupFields(c)) <==> HasGroup(v, c)
  {
    GroupAlike(v, c);
    GroupSame(v, c);
    RequestAgrees(encode, "ad_group_update", GroupFields(v), GroupFields(c));
  }

  lemma GroupAlike(v: AdGroupSpec, c: AdGroupSpec)
    ensures Alike(GroupFields(v), GroupFields(c)) && GroupFields(v)[0].value.Text?
  {
    GroupNamesDiffer(v);
  }

  lemma GroupNamesDiffer(v: AdGroupSpec)
    ensures forall i, j | 0 <= i < j < |GroupFields(v)| :: GroupFields(v)[i].name != GroupFields(v)[j].name
  {}

  lemma TextAt(a: seq<Field>, b: seq<Field>, i: nat, x: string, y: string)
    requires Alike(a, b) && SameWhereGiven(a, b) && i < |a| && a[i].value == Text(x) && b[i].value == Text(y)
    ensures i == 0 || x != "" ==> x == y
  {}

  lemma ListAt(a: seq<Field>, b: seq<Field>, i: nat, x: seq<string>, y: seq<string>)
    requires Alike(a, b) && SameWhereGiven(a, b) && i < |a| && a[i].value == Texts(x) && b[i].value == Texts(y)
    ensures x != [] ==> x == y
  {
    TextsInjective(x, y);
  }

  lemma GroupGiven(v: AdGroupSpec, c: AdGroupSpec)
    requires Alike(GroupFields(v), GroupFields(c)) && HasGroup(v, c)
    ensures SameWhereGiven(GroupFields(v), GroupFields(c))
  {}

  lemma GroupTexts(v: AdGroupSpec, c: AdGroupSpec)
    requires Alike(GroupFields(v), GroupFields(c)) && SameWhereGiven(GroupFields(v), GroupFields(c))
    ensures c.id == v.id && (v.bid != "" ==> c.bid == v.bid) && (v.budget != "" ==> c.budget == v.budget)
    ensures (v.end != "" ==> c.end == v.end) && (v.start != "" ==> c.start == v.start)
  {
    var a, b := GroupFields(v), GroupFields(c);
    TextAt(a, b, 0, v.id, c.id);
    TextAt(a, b, 2, v.bid, c.bid);
    TextAt(a, b, 3, v.budget, c.budget);
    TextAt(a, b, 8, v.end, c.end);
    TextAt(a, b, 9, v.start, c.start);
  }

  lemma GroupLists(v: AdGroupSpec, c: AdGroupSpec)
    requires Alike(GroupFields(v), GroupFields(c)) && SameWhereGiven(GroupFields(v), GroupFields(c))
    ensures (v.audiences != [] ==> c.audiences == v.audiences) && (v.excluded != [] ==> c.excluded == v.excluded)
    ensures (v.languages != [] ==> c.languages == v.languages) && (v.locations != [] ==> c.locations == v.locations)
    ensures v.placements != [] ==> c.placements == v.placements
  {
    var a, b := GroupFields(v), GroupFields(c);
    ListAt(a, b, 1, v.audiences, c.audiences);
    ListAt(a, b, 4, v.excluded, c.excluded);
    ListAt(a, b, 5, v.languages, c.languages);
    ListAt(a, b, 6, v.locations, c.locations);
    ListAt(a, b, 7, v.placements, c.placements);
  }

  lemma GroupSame(v: AdGroupSpec, c: AdGroupSpec)
    requires Alike(GroupFields(v), GroupFields(c))
    ensures SameWhereGiven(GroupFields(v), GroupFields(c)) <==> HasGroup(v, c)
  {
    if SameWhereGiven(GroupFields(v), GroupFields(c)) {
      GroupTexts(v, c);
      GroupLists(v, c);
    } else if HasGroup(v, c) {
      GroupGiven(v, c);
    }
  }

  lemma AdSame(v: AdSpec, c: AdSpec)
    requires Alike(AdFields(v), AdFields(c))
    ensures SameWhereGiven(AdFields(v), AdFields(c)) <==> HasAd(v, c)
  {
    var a, b := AdFields(v), AdFields(c);
    if SameWhereGiven(a, b) {
      TextAt(a, b, 0, v.id, c.id);
      TextAt(a, b, 1, v.asset, c.asset);
      TextAt(a, b, 2, v.assetKind, c.assetKind);
      TextAt(a, b, 3, v.action, c.action);
      TextAt(a, b, 4, v.url, c.url);
      TextAt(a, b, 5, v.identity, c.identity);
      TextAt(a, b, 6, v.identityType, c.identityType);
      TextAt(a, b, 7, v.text, c.text);
    }
  }

  lemma AdReview(encode: Json -> string, v: AdSpec, c: AdSpec)
    requires Injective(encode)
    ensures Regular(Request("ad_creative_update", AdFields(v)))
    ensures ReviewMatches(encode, "ad_creative_update", AdFields(v), AdFields(c)) <==> HasAd(v, c)
  {
    var a, b := AdFields(v), AdFields(c);
    assert Alike(a, b);
    RequestAgrees(encode, "ad_creative_update", a, b);
    AdSame(v, c);
  }

  // ----- the stored settings -----

  datatype Outcome = Acknowledged(ids: seq<string>) | NotSent | Rejected | PartlyDone(done: seq<string>)

  /** `budgets` holds the ad groups that exist, with their live budgets, and `live` the ads that
      exist; `groups` and `ads` hold the settings changed so far. */
  datatype Settings = Settings(
    budgets: map<string, string>, live: set<string>, groups: map<string, AdGroupSpec>, ads: map<string, AdSpec>)

  function GroupOf(s: Settings, id: string): AdGroupSpec { if id in s.groups then s.groups[id] else NO_GROUP }
  function AdOf(s: Settings, id: string): AdSpec { if id in s.ads then s.ads[id] else NO_AD }

  /** The settings of an ad group as read back: its budget is the live one. */
  function CurrentGroup(s: Settings, id: string): AdGroupSpec
    requires id in s.budgets
  {
    GroupOf(s, id).(budget := s.budgets[id])
  }

  class Backend {
    var budgets: map<string, string>
    var live: set<string>
    var groups: map<string, AdGroupSpec>
    var ads: map<string, AdSpec>

    function Value(): Settings
      reads this
    {
      Settings(budgets, live, groups, ads)
    }

    /** `stillValid` says whether the plan, prepared again, is still the approved one. */
    method UpdateAdGroup(v: AdGroupSpec, stillValid: bool) returns (r: Outcome)
      requires stillValid ==> v.id in budgets
      modifies this
      ensures !stillValid ==> r == NotSent && Value() == old(Value())
      ensures stillValid ==> r == Acknowledged([v.id]) && Value() == GroupUpdated(old(Value()), v)
    {
      if !stillValid { return NotSent; }
      if v.budget != "" { budgets := budgets[v.id := v.budget]; }
      var current := GroupOf(Value(), v.id);
      current := MergeAdGroup(current, v);
      groups := groups[v.id := current];
      return Acknowledged([v.id]);
    }

    method UpdateAd(v: AdSpec, stillValid: bool) returns (r: Outcome)
      modifies this
      ensures !stillValid ==> r == NotSent && Value() == old(Value())
      ensures stillValid ==> r == Acknowledged([v.id]) && Value() == AdUpdated(old(Value()), v)
    {
      if !stillValid { return NotSent; }
      var current := AdOf(Value(), v.id);
      current := MergeAd(current, v);
      ads := ads[v.id := current];
      return Acknowledged([v.id]);
    }
  }

  function GroupUpdated(s: Settings, v: AdGroupSpec): Settings {
    s.(budgets := if v.budget != "" then s.budgets[v.id := v.budget] else s.budgets,
       groups := s.groups[v.id := MergeAdGroup(GroupOf(s, v.id), v)])
  }

  function AdUpdated(s: Settings, v: AdSpec): Settings { s.(ads := s.ads[v.id := MergeAd(AdOf(s, v.id), v)]) }

  predicate ReconcileGroup(encode: Json -> string, s: Settings, v: AdGroupSpec, r: Outcome)
    requires Regular(Request("ad_group_update", GroupFields(v)))
  {
    r.Acknowledged? && r.ids != [] && forall i | 0 <= i < |r.ids| ::
      r.ids[i] in s.budgets && r.ids[i] in s.groups && r.ids[i] == v.id
      && ReviewMatches(encode, "ad_group_update", GroupFields(v), GroupFields(CurrentGroup(s, r.ids[i])))
  }

  predicate ReconcileAd(encode: Json -> string, s: Settings, v: AdSpec, r: Outcome)
    requires Regular(Request("ad_creative_update", AdFields(v)))
  {
    r.Acknowledged? && r.ids != [] && forall i | 0 <= i < |r.ids| ::
      r.ids[i] in s.live && r.ids[i] in s.ads && r.ids[i] == v.id
      && ReviewMatches(encode, "ad_creative_update", AdFields(v), AdFields(s.ads[r.ids[i]]))
  }

  // ----- round trips -----

  predicate TypesComeWithIds(v: AdSpec, before: AdSpec) {
    && (v.identityType == "" || v.identity != "" || before.identityType == v.identityType)
    && (v.assetKind == "" || v.asset != "" || before.assetKind == v.assetKind)
  }

  predicate IdsComeWithTypes(v: AdSpec, before: AdSpec) {
    && (v.identity == "" || v.identityType != "" || before.identityType == "")
    && (v.asset == "" || v.assetKind != "" || before.assetKind == "")
  }

  /** What `v` does not give is the same before and after. */
  predicate Untouched(v: AdSpec, before: AdSpec, after: AdSpec) {
    && (v.asset == "" ==> after.asset == before.asset) && (v.assetKind == "" ==> after.assetKind == before.assetKind)
    && (v.action == "" ==> after.action == before.action) && (v.url == "" ==> after.url == before.url)
    && (v.identity == "" ==> after.identity == before.identity)
    && (v.identityType == "" ==> after.identityType == before.identityType)
    && (v.text == "" ==> after.text == before.text)
  }

  /** An acknowledged ad group update reads back as done. */
  lemma GroupRoundTrip(encode: Json -> string, s: Settings, v: AdGroupSpec)
    requires Injective(encode) && v.id in s.budgets
    ensures Regular(Request("ad_group_update", GroupFields(v)))
    ensures ReconcileGroup(encode, GroupUpdated(s, v), v, Acknowledged([v.id]))
  {
    GroupReview(encode, v, CurrentGroup(GroupUpdated(s, v), v.id));
  }

  /** An update writes the live budget it gives, and reading back shows the live budget, whoever
      changed it last. */
  lemma LiveBudgetShows(s: Settings, v: AdGroupSpec, later: string)
    requires v.id in s.budgets
    ensures var t := GroupUpdated(s, v);
      && t.budgets == (if v.budget != "" then s.budgets[v.id := v.budget] else s.budgets)
      && CurrentGroup(t, v.id).budget == t.budgets[v.id]
      && CurrentGroup(t.(budgets := t.budgets[v.id := later]), v.id).budget == later
  {}

  /** What an update did not give is as it was: other settings of the group, other groups, ads. */
  lemma GroupUntouched(s: Settings, v: AdGroupSpec)
    requires v.id in s.budgets
    ensures var t, c, d := GroupUpdated(s, v), CurrentGroup(s, v.id), CurrentGroup(GroupUpdated(s, v), v.id);
      && d == AdGroupSpec(v.id, if v.audiences == [] then c.audiences else v.audiences,
                          if v.bid == "" then c.bid else v.bid, if v.budget == "" then c.budget else v.budget,
                          if v.excluded == [] then c.excluded else v.excluded,
                          if v.languages == [] then c.languages else v.languages,
                          if v.locations == [] then c.locations else v.locations,
                          if v.placements == [] then c.placements else v.placements,
                          if v.end == "" then c.end else v.end, if v.start == "" then c.start else v.start)
      && t.ads == s.ads && t.live == s.live && t.budgets.Keys == s.budgets.Keys
      && forall id | id in s.budgets && id != v.id :: CurrentGroup(t, id) == CurrentGroup(s, id)
  {}

  /** An update read back as done is there: every setting it gives is the current one. */
  lemma ReconciledGroupIsThere(encode: Json -> string, s: Settings, v: AdGroupSpec, r: Outcome)
    requires Injective(encode) && Regular(Request("ad_group_update", GroupFields(v)))
    ensures ReconcileGroup(encode, s, v, r)
      ==> v.id in s.budgets && HasGroup(v, CurrentGroup(s, v.id))
  {
    if ReconcileGroup(encode, s, v, r) {
      assert r.ids[0] == v.id;
      GroupReview(encode, v, CurrentGroup(s, v.id));
    }
  }

  lemma ReconciledAdIsThere(encode: Json -> string, s: Settings, v: AdSpec, r: Outcome)
    requires Injective(encode) && Regular(Request("ad_creative_update", AdFields(v)))
    ensures ReconcileAd(encode, s, v, r) ==> v.id in s.live && v.id in s.ads && HasAd(v, s.ads[v.id])
  {
    if ReconcileAd(encode, s, v, r) {
      assert r.ids[0] == v.id;
      AdReview(encode, v, s.ads[v.id]);
    }
  }

  /** An acknowledged creative update reads back as done exactly when each type it gives comes
      with its id, or was the type in force already. */
  lemma AdRoundTripIff(encode: Json -> string, s: Settings, v: AdSpec)
    requires Injective(encode) && v.id in s.live
    ensures Regular(Request("ad_creative_update", AdFields(v)))
    ensures ReconcileAd(encode, AdUpdated(s, v), v, Acknowledged([v.id]))
      <==> TypesComeWithIds(v, AdOf(s, v.id))
  {
    AdReview(encode, v, AdUpdated(s, v).ads[v.id]);
    var ids := [v.id];
    assert ids[0] == v.id;
    if ReconcileAd(encode, AdUpdated(s, v), v, Acknowledged(ids)) {
      assert ids[0] in AdUpdated(s, v).live;
    }
  }

  /** A creative update leaves what it does not give as it was exactly when an id it gives comes
      with its type, or there was no type to lose. */
  lemma AdUntouchedIff(s: Settings, v: AdSpec)
    requires v.id != ""
    ensures var c, d := AdOf(s, v.id), AdUpdated(s, v).ads[v.id];
      Untouched(v, c, d) <==> IdsComeWithTypes(v, c)
  {}

  /** Both happen: a request with a type but no id is accepted and never reads back as done, and
      one with an id but no type erases the type. */
  lemma TypesMatter(encode: Json -> string, s: Settings, id: string)
    requires Injective(encode) && id != "" && id in s.live && AdOf(s, id).identityType == "user"
    ensures var v := NO_AD.(id := id, identityType := "page", text := "new");
      Regular(Request("ad_creative_update", AdFields(v)))
      && !ReconcileAd(encode, AdUpdated(s, v), v, Acknowledged([id]))
    ensures AdUpdated(s, NO_AD.(id := id, identity := "other")).ads[id].identityType == ""
  {
    AdRoundTripIff(encode, s, NO_AD.(id := id, identityType := "page", text := "new"));
  }
}
