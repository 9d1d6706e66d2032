/** What a page shows of a turn, and that whatever it leaves out is marked. */
module TurnViews {
  import opened Options
  import opened Conversations

  predicate Public(m: Message) { m.role == "user" || m.role == "assistant" }

  /** `r` is `m` up to its first 2000 characters. */
  predicate CutOf(r: Message, m: Message) {
    r == m.(text := r.text) && r.text <= m.text && |r.text| == if |m.text| > 2000 then 2000 else |m.text|
  }

  /** `at` tells where each of the messages shown comes from. */
  predicate Picks(at: seq<nat>, ms: seq<Message>, shown: seq<Message>) {
    && |at| == |shown| && (forall j, k | 0 <= j < k < |at| :: at[j] < at[k])
    && (forall k | 0 <= k < |at| :: at[k] < |ms| && Public(ms[at[k]]) && CutOf(shown[k], ms[at[k]]))
    && forall i | 0 <= i < |ms| && Public(ms[i]) :: i in at
  }

  lemma PicksMore(at: seq<nat>, ms: seq<Message>, shown: seq<Message>, m: Message, r: Message)
    requires Picks(at, ms, shown)
    ensures !Public(m) ==> Picks(at, ms + [m], shown)
    ensures Public(m) && CutOf(r, m) ==> Picks(at + [|ms|], ms + [m], shown + [r])
  {
    assert forall i | 0 <= i < |ms| :: (ms + [m])[i] == ms[i];
    assert forall i: nat | i in at :: i in at + [|ms|];
    assert (at + [|ms|])[|at|] == |ms|;
  }

  /** The messages shown are the public ones, in order, each up to its first 2000 characters. */
  lemma {:induction false} KeptIsPublic(ms: seq<Message>) returns (at: seq<nat>)
    ensures Picks(at, ms, Kept(ms))
  {
    at := [];
    if ms != [] {
      var before, m := ms[..|ms| - 1], ms[|ms| - 1];
      var r := m.(text := if |m.text| > 2000 then m.text[..2000] else m.text);
      at := KeptIsPublic(before);
      assert ms == before + [m];
      PicksMore(at, before, Kept(before), m, r);
      if Public(m) { at := at + [|before|]; }
    }
  }

  /** The messages of a turn are all of its messages, in order. */
  predicate PicksTurn(at: seq<nat>, ms: seq<Message>, shown: seq<Message>, id: string) {
    && |at| == |shown| && (forall j, k | 0 <= j < k < |at| :: at[j] < at[k])
    && (forall k | 0 <= k < |at| :: at[k] < |ms| && ms[at[k]].turn == id && shown[k] == ms[at[k]])
    && forall i | 0 <= i < |ms| && ms[i].turn == id :: i in at
  }

  lemma PicksTurnMore(at: seq<nat>, ms: seq<Message>, shown: seq<Message>, id: string, m: Message)
    requires PicksTurn(at, ms, shown, id)
    ensures m.turn != id ==> PicksTurn(at, ms + [m], shown, id)
    ensures m.turn == id ==> PicksTurn(at + [|ms|], ms + [m], shown + [m], id)
  {
    assert forall i | 0 <= i < |ms| :: (ms + [m])[i] == ms[i];
    assert forall i: nat | i in at :: i in at + [|ms|];
    assert (at + [|ms|])[|at|] == |ms|;
  }

  lemma {:induction false} TurnIsWhole(ms: seq<Message>, id: string) returns (at: seq<nat>)
    ensures PicksTurn(at, ms, Of(ms, id), id)
  {
    at := [];
    if ms != [] {
      var before, m := ms[..|ms| - 1], ms[|ms| - 1];
      at := TurnIsWhole(before, id);
      assert ms == before + [m];
      PicksTurnMore(at, before, Of(before, id), id, m);
      if m.turn == id { at := at + [|before|]; }
    }
  }

  /** Where a turn's first message is. */
  function FirstOf(ms: seq<Message>, id: string): (i: nat)
    ensures i <= |ms| && (i < |ms| ==> ms[i].turn == id) && forall k | 0 <= k < i :: ms[k].turn != id
  {
    if ms == [] || ms[0].turn == id then 0 else 1 + FirstOf(ms[1..], id)
  }

  /** The turns of a session are those of its messages, in the order of their first ones. */
  lemma {:induction false} TurnsInOrder(ms: seq<Message>)
    ensures forall id :: id in TurnIds(ms) <==> FirstOf(ms, id) < |ms|
    ensures forall i, j | 0 <= i < j < |TurnIds(ms)| :: FirstOf(ms, TurnIds(ms)[i]) < FirstOf(ms, TurnIds(ms)[j])
  {
    if ms != [] {
      var before, m := ms[..|ms| - 1], ms[|ms| - 1];
      TurnsInOrder(before);
      assert ms == before + [m];
      forall id ensures FirstOf(ms, id) == if FirstOf(before, id) < |before| then FirstOf(before, id)
                                           else if id == m.turn then |before| else |ms|
      {
        FirstMore(before, m, id);
      }
    }
  }

  lemma FirstMore(ms: seq<Message>, m: Message, id: string)
    ensures FirstOf(ms + [m], id) == if FirstOf(ms, id) < |ms| then FirstOf(ms, id)
                                     else if id == m.turn then |ms| else |ms| + 1
  {
    var k := FirstOf(ms, id);
    assert forall i | 0 <= i < |ms| :: (ms + [m])[i] == ms[i];
    assert (ms + [m])[|ms|] == m;
  }

  // ----- what events add -----

  /** Cards that are small enough, in order. */
  function SmallCards(es: seq<Event>): seq<nat> {
    if es == [] then []
    else
      var before, e := SmallCards(es[..|es| - 1]), es[|es| - 1];
      if e.Card? && e.bytes <= 4000 then before + [e.bytes] else before
  }

  function KnownTools(es: seq<Event>): seq<nat> {
    if es == [] then []
    else
      var before, e := KnownTools(es[..|es| - 1]), es[|es| - 1];
      if e.Tool? && e.decodes then before + [e.bytes] else before
  }

  function LastContext(es: seq<Event>): Option<nat> {
    if es == [] then None
    else if es[|es| - 1].Bound? && es[|es| - 1].bytes <= 2500 then Some(es[|es| - 1].bytes)
    else LastContext(es[..|es| - 1])
  }

  function First(ns: seq<nat>, n: nat): seq<nat> { if |ns| <= n then ns else ns[..n] }

  predicate Fitting(e: Event) {
    match e
    case Bound(n) => n <= 2500
    case Card(n) => n <= 4000
    case Tool(decodes, _) => decodes
    case Other => true
  }

  predicate AllFit(es: seq<Event>) { forall i | 0 <= i < |es| :: Fitting(es[i]) }

  /** A turn shows its first three small cards, its first twelve tools and its last small context,
      and is marked exactly when that, or a message, is not everything. */
  lemma {:induction false} EventsShown(t: Turn, es: seq<Event>)
    requires t.cards == [] && t.tools == [] && t.context.None?
    ensures var r := NoteAll(t, es);
      && r.messages == t.messages && r.cards == First(SmallCards(es), 3) && r.tools == First(KnownTools(es), 12)
      && r.context == LastContext(es)
      && (r.truncated <==> t.truncated || !AllFit(es) || |SmallCards(es)| > 3 || |KnownTools(es)| > 12)
  {
    if es != [] {
      var before, e := es[..|es| - 1], es[|es| - 1];
      EventsShown(t, before);
      assert AllFit(es) <==> AllFit(before) && Fitting(e);
      OneMore(SmallCards(before), e, 3);
      OneMore(KnownTools(before), e, 12);
    }
  }

  lemma OneMore(ns: seq<nat>, e: Event, n: nat)
    ensures !e.Other? ==> First(ns + [e.bytes], n) == if |ns| < n then ns + [e.bytes] else First(ns, n)
  {}

  /** The turn before anything is left out for size. */
  predicate Complete(ms: seq<Message>, es: seq<Event>) {
    && (forall i | 0 <= i < |ms| && Public(ms[i]) :: |ms[i].text| <= 2000)
    && AllFit(es) && |SmallCards(es)| <= 3 && |KnownTools(es)| <= 12
  }

  lemma FullIsMarked(id: string, ms: seq<Message>, es: seq<Event>)
    ensures Full(id, ms, es).truncated <==> !Complete(ms, es)
  {
    EventsShown(Turn(id, Kept(ms), None, [], [], AnyCut(ms)), es);
  }

  /** A page leaves something of a turn out exactly when the turn is marked. */
  lemma MarkedIffCut(c: Costs, id: string, ms: seq<Message>, es: seq<Event>)
    requires CanTrim(c, Lightened(c, Full(id, ms, es)))
    ensures var full := Full(id, ms, es); var shown := Settled(c, Lightened(c, full));
      && (!shown.truncated <==> Complete(ms, es) && Bytes(c, full) <= HALF)
      && (!shown.truncated ==> shown == full)
  {
    var full := Full(id, ms, es);
    FullIsMarked(id, ms, es);
    TrimMarks(c, Lightened(c, full));
  }

  lemma {:induction false} TrimMarks(c: Costs, t: Turn)
    requires CanTrim(c, t)
    ensures Bytes(c, t) <= HALF ==> Trim(c, t) == t
    ensures t.truncated || Bytes(c, t) > HALF ==> Trim(c, t).truncated
    decreases Runes(t.messages)
  {
    if Bytes(c, t) > HALF {
      HalveSteps(c, t);
      TrimMarks(c, Halve(t));
    }
  }

  // ----- how much text is left -----

  function Half(n: nat, times: nat): nat { if times == 0 then n else Half(n, times - 1) / 2 }

  /** Halvings shorten texts from their ends, and take nothing else away. */
  lemma {:induction false} HalvedTexts(t: Turn, n: nat, i: nat)
    requires i < |t.messages|
    ensures var r := Halved(t, n);
      r == t.(messages := r.messages, truncated := r.truncated) && |r.messages| == |t.messages|
    ensures var m, r := t.messages[i], Halved(t, n).messages[i];
      r == m.(text := r.text) && r.text <= m.text && |r.text| == Half(|m.text|, n)
  {
    if n > 0 { HalvedTexts(t, n - 1, i); }
  }

  /** No fewer halvings make the turn small. */
  predicate Needed(c: Costs, t: Turn, n: nat) { forall k | 0 <= k < n :: Bytes(c, Halved(t, k)) > HALF }

  lemma NeededOnce(c: Costs, t: Turn, m: nat)
    requires Bytes(c, t) > HALF && Needed(c, Halve(t), m)
    ensures Needed(c, t, m + 1)
  {
    forall k | 0 <= k < m + 1 ensures Bytes(c, Halved(t, k)) > HALF {
      if k > 0 {
        HalveFirst(t, k - 1);
        assert Bytes(c, Halved(Halve(t), k - 1)) > HALF;
      }
    }
  }

  /** Trimming halves texts as often as needed and no oftener. */
  lemma {:induction false} TrimIsLeast(c: Costs, t: Turn) returns (n: nat)
    requires CanTrim(c, t)
    ensures Trim(c, t) == Halved(t, n) && Needed(c, t, n)
    decreases Runes(t.messages)
  {
    n := 0;
    if Bytes(c, t) > HALF {
      HalveSteps(c, t);
      var m := TrimIsLeast(c, Halve(t));
      HalveFirst(t, m);
      NeededOnce(c, t, m);
      n := m + 1;
    }
  }

  // ----- pages -----

  /** A request is refused exactly when its cursor is not in the session. */
  lemma UnknownCursorRefused(fits: Page -> bool, h: seq<Turn>, before: string)
    ensures Answer(fits, h, before).None? <==> before != "" && forall t | t in h :: t.id != before
  {
    if before != "" && Find(h, before) < |h| { assert h[Find(h, before)] in h; }
  }

  /** A page ends right before its cursor, and goes back as far as it fits: not even one older turn
      would fit. It names its oldest turn unless nothing is older. */
  lemma {:induction false} PageGoesBack(fits: Page -> bool, h: seq<Turn>, i: nat, end: nat) returns (k: nat)
    requires i <= end <= |h|
    ensures k == Oldest(fits, h, i, end) <= i && (k > 0 ==> !fits(PageOf(h, k - 1, end)))
    ensures PageOf(h, k, end).turns == h[k..end] && (k < end && k > 0 ==> PageOf(h, k, end).next == h[k].id)
    decreases i
  {
    k := i;
    if i > 0 && fits(PageOf(h, i - 1, end)) { k := PageGoesBack(fits, h, i - 1, end); }
  }
}
