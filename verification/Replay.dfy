/** The browser's picture of a running turn (`reduceEvent` in web/src/reducer.ts). */
module Replay {
  import opened Options
  import opened Turns
  import Stream
  import Numerals

  datatype Activity = ToolItem(id: string) | MessageItem(id: string, text: string)
  datatype Note = Note(turn: string, number: int, message: string, at: string)

  datatype Live = Live(
    turn: string, number: int, text: string, cards: seq<Card>, tools: seq<Tool>, activity: seq<Activity>,
    progress: seq<Note>, status: string, elapsed: Option<int>, error: Option<string>, context: Option<string>)

  const EMPTY := Live("", 0, "", [], [], [], [], "idle", None, None, None)

  // ----- lists of things with an id -----

  const CardId: Card -> string := (card: Card) => card.id
  const ToolId: Tool -> string := (tool: Tool) => tool.id

  function Ids<T>(items: seq<T>, id: T -> string): (ids: seq<string>)
    ensures |ids| == |items|
  {
    seq(|items|, i requires 0 <= i < |items| => id(items[i]))
  }

  function Keep<T>(items: seq<T>, keep: T -> bool): seq<T> {
    if items == [] then []
    else Keep(items[..|items| - 1], keep) + if keep(items[|items| - 1]) then [items[|items| - 1]] else []
  }

  predicate Distinct(ids: seq<string>) { forall i, j | 0 <= i < j < |ids| :: ids[i] != ids[j] }

  function UpsertCard(cards: seq<Card>, card: Card): seq<Card> {
    if exists i :: 0 <= i < |cards| && cards[i].id == card.id
    then seq(|cards|, i requires 0 <= i < |cards| => if cards[i].id == card.id then card else cards[i])
    else cards + [card]
  }

  function UpsertAll(cards: seq<Card>, more: seq<Card>): seq<Card> {
    if more == [] then cards else UpsertCard(UpsertAll(cards, more[..|more| - 1]), more[|more| - 1])
  }

  const Settled: Card -> bool := (card: Card) => !card.pending

  function SavedIn(saved: seq<Card>): Card -> bool {
    (card: Card) => exists i :: 0 <= i < |saved| && saved[i].id == card.id
  }

  function Not(id: string): Tool -> bool { (tool: Tool) => tool.id != id }

  /** `{...item, ...tool}` */
  function Merge(item: Tool, tool: Tool): Tool { Tool(tool.id, item.fields + tool.fields) }

  function FinishTool(tools: seq<Tool>, tool: Tool): seq<Tool> {
    if exists i :: 0 <= i < |tools| && tools[i].id == tool.id
    then seq(|tools|, i requires 0 <= i < |tools| => if tools[i].id == tool.id then Merge(tools[i], tool) else tools[i])
    else tools + [tool]
  }

  function ShowTool(activity: seq<Activity>, id: string): seq<Activity> {
    if ToolItem(id) in activity then activity else activity + [ToolItem(id)]
  }

  function AddText(activity: seq<Activity>, e: Event, text: string, message: string): (r: seq<Activity>)
    ensures r != [] && |r| - 1 <= |activity|
  {
    var n := |activity|;
    if n > 0 && activity[n - 1].MessageItem? && (message == "" || activity[n - 1].id == message)
    then activity[..n - 1] + [MessageItem(activity[n - 1].id, activity[n - 1].text + text)]
    else
      var number := Numerals.Digits(if e.number < 0 then 0 else e.number);
      activity + [MessageItem(if message != "" then message else e.turn + "-" + number, text)]
  }

  // ----- one event -----

  function Apply(next: Live, e: Event): Live {
    match e.body
    case Started => next.(status := "running")
    case Bound(context) => next.(context := Some(context))
    case Delta(text, message) => next.(text := next.text + text, activity := AddText(next.activity, e, text, message))
    case Upsert(card) => next.(cards := UpsertCard(next.cards, card))
    case Partial(card) => if card.kind == "" then next else next.(cards := UpsertCard(next.cards, card))
    case ToolStarted(tool) =>
      next.(activity := ShowTool(next.activity, tool.id),
            tools := Keep(next.tools, Not(tool.id)) + [tool.(fields := tool.fields["started_at" := e.at])])
    case ToolFinished(tool) =>
      next.(activity := ShowTool(next.activity, tool.id), tools := FinishTool(next.tools, tool))
    case Progress(note) =>
      if note == "" then next else next.(progress := next.progress + [Note(e.turn, e.number, note, e.at)])
    case Completed(r) =>
      next.(status := r.status, text := r.text, elapsed := Some(r.elapsed), error := r.error,
            cards := if r.cards != [] then UpsertAll(Keep(next.cards, SavedIn(r.cards)), r.cards)
                     else Keep(next.cards, Settled))
    case _ => next
  }

  function Reduce(s: Live, e: Event): Live {
    if e.body.Reset? then EMPTY
    else if e.version != "1" then s
    else if e.turn == s.turn && e.number <= s.number then s
    else if s.turn != "" && e.turn != s.turn && !e.body.Started? then s
    else Apply((if e.turn != s.turn then EMPTY else s).(turn := e.turn, number := e.number), e)
  }

  function Fold(s: Live, es: seq<Event>): Live {
    if es == [] then s else Reduce(Fold(s, es[..|es| - 1]), es[|es| - 1])
  }

  // ----- re-delivery -----

  /** A delivery of the first `n` events of a log: each arrives in order, and any event that has
      arrived may arrive again at any later moment, any number of times. */
  predicate Delivers(ds: seq<Event>, es: seq<Event>, n: nat)
    requires n <= |es|
    decreases |ds|
  {
    if ds == [] then n == 0
    else
      var rest, d := ds[..|ds| - 1], ds[|ds| - 1];
      || (0 < n && d == es[n - 1] && Delivers(rest, es, n - 1))
      || (d in es[..n] && Delivers(rest, es, n))
  }

  lemma AppliedAt(next: Live, e: Event)
    ensures Apply(next, e).turn == next.turn && Apply(next, e).number == next.number
  {}

  /** A live turn remembers how far it got. */
  lemma {:induction false} FoldPosition(s: Live, es: seq<Event>, turn: string)
    requires Log(es, turn) && es != [] && s.turn != turn
    ensures Fold(s, es).turn == turn && Fold(s, es).number == |es|
  {
    var n := |es| - 1;
    if n > 0 {
      assert Log(es[..n], turn);
      FoldPosition(s, es[..n], turn);
    }
  }

  lemma FoldSnoc(s: Live, es: seq<Event>, e: Event)
    ensures Fold(s, es + [e]) == Reduce(Fold(s, es), e)
  {
    assert (es + [e])[..|es|] == es;
  }

  lemma Onward(s: Live, ds: seq<Event>, es: seq<Event>, n: nat)
    requires 0 < n <= |es| && Fold(s, ds) == Fold(s, es[..n - 1])
    ensures Fold(s, ds + [es[n - 1]]) == Fold(s, es[..n])
  {
    assert es[..n] == es[..n - 1] + [es[n - 1]];
    FoldSnoc(s, ds, es[n - 1]);
    FoldSnoc(s, es[..n - 1], es[n - 1]);
  }

  lemma LogPrefix(es: seq<Event>, n: nat, turn: string)
    requires Log(es, turn) && n <= |es|
    ensures Log(es[..n], turn)
  {}

  lemma SeenIgnored(s: Live, ds: seq<Event>, es: seq<Event>, d: Event, turn: string)
    requires Log(es, turn) && s.turn != turn && d in es && Fold(s, ds) == Fold(s, es)
    ensures Fold(s, ds + [d]) == Fold(s, es)
  {
    FoldPosition(s, es, turn);
    FoldSnoc(s, ds, d);
  }

  /** Repeats change nothing: any delivery of a log gives the same picture as the log itself. */
  lemma {:induction false} RedeliveryIsInvisible(s: Live, ds: seq<Event>, es: seq<Event>, n: nat, turn: string)
    requires Log(es, turn) && s.turn != turn && n <= |es| && Delivers(ds, es, n)
    ensures Fold(s, ds) == Fold(s, es[..n])
    decreases |ds|
  {
    if ds == [] {
      assert es[..0] == [];
    } else {
      var rest, d := ds[..|ds| - 1], ds[|ds| - 1];
      assert ds == rest + [d];
      if 0 < n && d == es[n - 1] && Delivers(rest, es, n - 1) {
        RedeliveryIsInvisible(s, rest, es, n - 1, turn);
        Onward(s, rest, es, n);
      } else {
        RedeliveryIsInvisible(s, rest, es, n, turn);
        LogPrefix(es, n, turn);
        SeenIgnored(s, rest, es[..n], d, turn);
      }
    }
  }

  lemma {:induction false} DeliversItself(es: seq<Event>, n: nat)
    requires n <= |es|
    ensures Delivers(es[..n], es, n)
  {
    if n > 0 { DeliversItself(es, n - 1); assert es[..n][..n - 1] == es[..n - 1]; }
  }

  lemma {:induction false} DeliversMore(ds: seq<Event>, es: seq<Event>, n: nat, k: nat)
    requires n <= |es| && k <= |es| && Delivers(ds, es, n)
    ensures Delivers(ds + es[..k], es, if k > n then k else n)
  {
    if k == 0 {
      assert ds + es[..0] == ds;
    } else {
      DeliversMore(ds, es, n, k - 1);
      var all := ds + es[..k];
      assert all[..|all| - 1] == ds + es[..k - 1] && all[|all| - 1] == es[k - 1];
      if k <= n { assert es[..n][k - 1] == es[k - 1]; }
    }
  }

  /** Reading a turn's stream up to any point and then replaying its stored log from the start
      shows what the replay alone shows. */
  lemma StreamThenReplay(s: Live, es: seq<Event>, k: nat, turn: string)
    requires Log(es, turn) && s.turn != turn && k <= |es|
    ensures Fold(s, es[..k] + es) == Fold(s, es)
  {
    DeliversItself(es, k);
    DeliversMore(es[..k], es, k, |es|);
    assert es[..|es|] == es;
    RedeliveryIsInvisible(s, es[..k] + es, es, |es|, turn);
  }

  /** From printed frames to the picture: however the connection cuts the stream, wherever it
      breaks, and whatever is delivered again afterwards together with the rest of the log, the
      browser ends where one replay of the stored log ends. */
  lemma StreamedPicture(c: Stream.Codec<Event>, es: seq<Event>, chunks: seq<string>, turn: string)
    requires Stream.Faithful(c) && Stream.Small(c, es) && Log(es, turn)
    requires Stream.Concat(chunks) <= Stream.Printed(c, es)
    ensures var got := Stream.ReceiveAll(c, Stream.Start<Event>(), chunks).emitted;
      got <= es && Fold(Fold(EMPTY, got), es) == Fold(EMPTY, es)
  {
    var k, rest := Stream.EmitsWhatArrived(c, es, chunks);
    StreamThenReplay(EMPTY, es, k, turn);
    FoldAppend(EMPTY, es[..k], es);
  }

  lemma {:induction false} FoldAppend(s: Live, a: seq<Event>, b: seq<Event>)
    ensures Fold(s, a + b) == Fold(Fold(s, a), b)
  {
    if b == [] {
      assert a + b == a;
    } else {
      FoldAppend(s, a, b[..|b| - 1]);
      assert (a + b)[..|a + b| - 1] == a + b[..|b| - 1];
    }
  }

  // ----- another turn's events -----

  /** Of the events of other turns, exactly the start of a turn gets through to a running one. */
  lemma OtherTurns(s: Live, e: Event)
    requires s.turn != "" && e.turn != s.turn && e.version == "1" && !e.body.Reset?
    ensures Reduce(s, e) == s <==> !e.body.Started?
  {
    if e.body.Started? { AppliedAt(EMPTY.(turn := e.turn, number := e.number), e); }
  }

  /** So a late repeat of an earlier turn's start displaces the running turn, whose further
      events are then ignored: repeats are harmless only within one turn. */
  lemma {:induction false} LateStartDisplaces(s: Live, stale: Event, later: seq<Event>)
    requires s.turn != "" && stale.turn != "" && stale.turn != s.turn && stale.version == "1" && stale.body.Started?
    requires forall e | e in later :: e.turn == s.turn && e.version == "1" && !e.body.Started? && !e.body.Reset?
    ensures Fold(Reduce(s, stale), later) == Reduce(s, stale) && Reduce(s, stale).turn == stale.turn
  {
    if later != [] {
      assert later[|later| - 1] in later;
      LateStartDisplaces(s, stale, later[..|later| - 1]);
    }
  }

  // ----- identities stay distinct -----

  /** Every tool has its place in the activity, and no tool has two. */
  predicate Tidy(s: Live) {
    && Distinct(Ids(s.cards, CardId)) && Distinct(Ids(s.tools, ToolId))
    && Shown(s.tools, s.activity) && ShownOnce(s.activity)
  }

  lemma DistinctSnoc(ids: seq<string>, id: string)
    ensures Distinct(ids + [id]) <==> Distinct(ids) && id !in ids
  {
    var all := ids + [id];
    if Distinct(all) {
      forall i, j | 0 <= i < j < |ids| ensures ids[i] != ids[j] { assert all[i] != all[j]; }
      forall i | 0 <= i < |ids| ensures ids[i] != id { assert all[i] != all[|ids|]; }
    }
  }

  /** An update keeps every card's place; a new card comes last. */
  lemma UpsertKeepsPlaces(cards: seq<Card>, card: Card)
    requires Distinct(Ids(cards, CardId))
    ensures var r := UpsertCard(cards, card);
      && Distinct(Ids(r, CardId)) && card in r
      && Ids(r, CardId) == Ids(cards, CardId) + (if card.id in Ids(cards, CardId) then [] else [card.id])
      && forall i | 0 <= i < |cards| && cards[i].id != card.id :: r[i] == cards[i]
  {
    var r, ids := UpsertCard(cards, card), Ids(cards, CardId);
    if i :| 0 <= i < |cards| && cards[i].id == card.id {
      assert ids[i] == card.id && r[i] == card;
      assert Ids(r, CardId) == ids + [];
    } else {
      assert forall i | 0 <= i < |ids| :: ids[i] != card.id;
      assert Ids(r, CardId) == ids + [card.id] && r[|cards|] == card;
    }
  }

  lemma IdsSnoc<T>(items: seq<T>, x: T, id: T -> string)
    ensures Distinct(Ids(items + [x], id)) <==> Distinct(Ids(items, id)) && id(x) !in Ids(items, id)
  {
    assert Ids(items + [x], id) == Ids(items, id) + [id(x)];
    DistinctSnoc(Ids(items, id), id(x));
  }

  lemma {:induction false} KeptMembers<T>(items: seq<T>, keep: T -> bool)
    ensures forall x | x in Keep(items, keep) :: x in items && keep(x)
  {
    if items != [] {
      var before, last := items[..|items| - 1], items[|items| - 1];
      KeptMembers(before, keep);
      assert items == before + [last];
    }
  }

  lemma {:induction false} Kept<T>(items: seq<T>, keep: T -> bool, id: T -> string)
    requires Distinct(Ids(items, id))
    ensures Distinct(Ids(Keep(items, keep), id))
  {
    if items != [] {
      var before, last := items[..|items| - 1], items[|items| - 1];
      assert items == before + [last];
      IdsSnoc(before, last, id);
      Kept(before, keep, id);
      KeptMembers(before, keep);
      Unused(Keep(before, keep), before, id, id(last));
      IdsSnoc(Keep(before, keep), last, id);
      assert Keep(items, keep) == if keep(last) then Keep(before, keep) + [last] else Keep(before, keep);
    }
  }

  lemma Unused<T>(r: seq<T>, items: seq<T>, id: T -> string, x: string)
    requires (forall y | y in r :: y in items) && x !in Ids(items, id)
    ensures x !in Ids(r, id)
  {
    forall i | 0 <= i < |r| ensures Ids(r, id)[i] != x {
      assert r[i] in r;
      var k :| 0 <= k < |items| && items[k] == r[i];
      assert Ids(items, id)[k] != x;
    }
  }

  lemma {:induction false} UpsertAllDistinct(cards: seq<Card>, more: seq<Card>)
    requires Distinct(Ids(cards, CardId))
    ensures Distinct(Ids(UpsertAll(cards, more), CardId))
  {
    if more != [] {
      UpsertAllDistinct(cards, more[..|more| - 1]);
      UpsertKeepsPlaces(UpsertAll(cards, more[..|more| - 1]), more[|more| - 1]);
    }
  }

  lemma FinishToolKeeps(tools: seq<Tool>, tool: Tool)
    requires Distinct(Ids(tools, ToolId))
    ensures var r := FinishTool(tools, tool);
      Distinct(Ids(r, ToolId)) && forall i | 0 <= i < |r| :: r[i].id == tool.id || r[i] in tools
  {
    var r, ids := FinishTool(tools, tool), Ids(tools, ToolId);
    if i :| 0 <= i < |tools| && tools[i].id == tool.id {
      assert Ids(r, ToolId) == ids;
    } else {
      assert forall i | 0 <= i < |ids| :: ids[i] != tool.id;
      assert Ids(r, ToolId) == ids + [tool.id];
    }
  }

  predicate ShownOnce(activity: seq<Activity>) {
    forall i, j | 0 <= i < j < |activity| && activity[i].ToolItem? :: activity[i] != activity[j]
  }

  predicate Shown(tools: seq<Tool>, activity: seq<Activity>) {
    forall i | 0 <= i < |tools| :: ToolItem(tools[i].id) in activity
  }

  lemma ShowToolShows(activity: seq<Activity>, id: string)
    requires ShownOnce(activity)
    ensures var r := ShowTool(activity, id);
      ShownOnce(r) && ToolItem(id) in r && forall item :: item in activity ==> item in r
  {}

  /** Text only ever changes message items. */
  lemma AddTextShows(activity: seq<Activity>, e: Event, text: string, message: string, tools: seq<Tool>)
    requires ShownOnce(activity) && Shown(tools, activity)
    ensures ShownOnce(AddText(activity, e, text, message)) && Shown(tools, AddText(activity, e, text, message))
  {
    var n, r := |activity|, AddText(activity, e, text, message);
    forall i | 0 <= i < |tools| ensures ToolItem(tools[i].id) in r {
      assert ToolItem(tools[i].id) in activity;
      var k :| 0 <= k < n && activity[k] == ToolItem(tools[i].id);
      assert r[k] == activity[k];
    }
  }

  lemma ToolStartedTidy(s: Live, tool: Tool, more: Tool)
    requires Tidy(s) && more.id == tool.id
    ensures Tidy(s.(activity := ShowTool(s.activity, tool.id), tools := Keep(s.tools, Not(tool.id)) + [more]))
  {
    var kept := Keep(s.tools, Not(tool.id));
    ShowToolShows(s.activity, tool.id);
    Kept(s.tools, Not(tool.id), ToolId);
    KeptMembers(s.tools, Not(tool.id));
    forall i | 0 <= i < |kept| ensures Ids(kept, ToolId)[i] != more.id { assert kept[i] in kept; }
    IdsSnoc(kept, more, ToolId);
    var shown := ShowTool(s.activity, tool.id);
    forall t | t in kept + [more] ensures ToolItem(t.id) in shown {
      if t != more { var i :| 0 <= i < |s.tools| && s.tools[i] == t; assert ToolItem(s.tools[i].id) in s.activity; }
    }
    assert forall i | 0 <= i < |kept| + 1 :: (kept + [more])[i] in kept + [more];
  }

  lemma ToolFinishedTidy(s: Live, tool: Tool)
    requires Tidy(s)
    ensures Tidy(s.(activity := ShowTool(s.activity, tool.id), tools := FinishTool(s.tools, tool)))
  {
    ShowToolShows(s.activity, tool.id);
    FinishToolKeeps(s.tools, tool);
  }

  lemma CompletedCards(cards: seq<Card>, r: Result)
    requires Distinct(Ids(cards, CardId))
    ensures Distinct(Ids(UpsertAll(Keep(cards, SavedIn(r.cards)), r.cards), CardId))
    ensures Distinct(Ids(Keep(cards, Settled), CardId))
  {
    Kept(cards, SavedIn(r.cards), CardId);
    Kept(cards, Settled, CardId);
    UpsertAllDistinct(Keep(cards, SavedIn(r.cards)), r.cards);
  }

  lemma ApplyTidy(s: Live, e: Event)
    requires Tidy(s)
    ensures Tidy(Apply(s, e))
  {
    match e.body {
      case Delta(text, message) => AddTextShows(s.activity, e, text, message, s.tools);
      case Upsert(card) => UpsertKeepsPlaces(s.cards, card);
      case Partial(card) => UpsertKeepsPlaces(s.cards, card);
      case ToolStarted(tool) => ToolStartedTidy(s, tool, tool.(fields := tool.fields["started_at" := e.at]));
      case ToolFinished(tool) => ToolFinishedTidy(s, tool);
      case Completed(r) => CompletedCards(s.cards, r);
      case _ =>
    }
  }

  /** No event ever makes two cards or two tools share an id, or hides a tool. */
  lemma ReduceTidy(s: Live, e: Event)
    requires Tidy(s)
    ensures Tidy(Reduce(s, e))
  {
    var next := (if e.turn != s.turn then EMPTY else s).(turn := e.turn, number := e.number);
    assert Tidy(next);
    ApplyTidy(next, e);
  }

  lemma {:induction false} AlwaysTidy(es: seq<Event>)
    ensures Tidy(Fold(EMPTY, es))
  {
    if es != [] {
      AlwaysTidy(es[..|es| - 1]);
      ReduceTidy(Fold(EMPTY, es[..|es| - 1]), es[|es| - 1]);
    }
  }

  // ----- the cards of a completed turn -----

  lemma UpsertMembers(cards: seq<Card>, card: Card)
    requires Distinct(Ids(cards, CardId))
    ensures var r := UpsertCard(cards, card);
      && (forall x | x in cards && x.id != card.id :: x in r)
      && (forall x | x in r :: x == card || (x in cards && x.id != card.id))
  {
    var r := UpsertCard(cards, card);
    forall x | x in cards && x.id != card.id ensures x in r {
      var i :| 0 <= i < |cards| && cards[i] == x;
      assert r[i] == x;
    }
  }

  lemma {:induction false} UpsertAllMembers(cards: seq<Card>, more: seq<Card>)
    requires Distinct(Ids(cards, CardId)) && Distinct(Ids(more, CardId))
    ensures var r := UpsertAll(cards, more);
      && (forall x | x in more :: x in r)
      && (forall x | x in r :: x in more || (x in cards && x.id !in Ids(more, CardId)))
    ensures Ids(cards, CardId) <= Ids(UpsertAll(cards, more), CardId)
  {
    if more != [] {
      var before, last := more[..|more| - 1], more[|more| - 1];
      assert more == before + [last];
      IdsSnoc(before, last, CardId);
      UpsertAllMembers(cards, before);
      UpsertAllDistinct(cards, before);
      var r := UpsertAll(cards, before);
      UpsertMembers(r, last);
      UpsertKeepsPlaces(r, last);
      LastIsNew(before, last);
    }
  }

  lemma LastIsNew(before: seq<Card>, last: Card)
    requires Distinct(Ids(before + [last], CardId))
    ensures Ids(before + [last], CardId) == Ids(before, CardId) + [last.id]
    ensures forall x | x in before :: x.id != last.id
  {
    IdsSnoc(before, last, CardId);
    assert Ids(before + [last], CardId) == Ids(before, CardId) + [last.id];
    forall x | x in before ensures x.id != last.id { IdOf(before, x); }
  }

  lemma IdOf(cards: seq<Card>, x: Card)
    requires x in cards
    ensures x.id in Ids(cards, CardId)
  {
    var i :| 0 <= i < |cards| && cards[i] == x;
    assert Ids(cards, CardId)[i] == x.id;
  }

  /** When a turn completes with cards, exactly those are shown, as the result has them, and the
      ones that were on screen stay first and in the order they were read in. */
  lemma CompletedShowsResult(s: Live, e: Event)
    requires Tidy(s) && e.body.Completed? && e.body.result.cards != [] && Distinct(Ids(e.body.result.cards, CardId))
    requires e.version == "1" && e.turn == s.turn && e.number > s.number
    ensures var shown, saved := Reduce(s, e).cards, e.body.result.cards;
      && (forall card :: card in shown <==> card in saved)
      && Ids(Keep(s.cards, SavedIn(saved)), CardId) <= Ids(shown, CardId)
  {
    var saved := e.body.result.cards;
    var kept := Keep(s.cards, SavedIn(saved));
    Kept(s.cards, SavedIn(saved), CardId);
    KeptMembers(s.cards, SavedIn(saved));
    UpsertAllMembers(kept, saved);
    forall x | x in kept ensures x.id in Ids(saved, CardId) {
      var i :| 0 <= i < |saved| && saved[i].id == x.id;
      assert Ids(saved, CardId)[i] == x.id;
    }
  }

  // ----- the text of a running turn -----

  function Deltas(es: seq<Event>): string {
    if es == [] then ""
    else Deltas(es[..|es| - 1]) + if es[|es| - 1].body.Delta? then es[|es| - 1].body.text else ""
  }

  /** The text of the message items, in the order they are shown. */
  function MessageTexts(activity: seq<Activity>): string {
    if activity == [] then ""
    else
      var last := activity[|activity| - 1];
      MessageTexts(activity[..|activity| - 1]) + if last.MessageItem? then last.text else ""
  }

  lemma MessageSnoc(activity: seq<Activity>, item: Activity)
    ensures MessageTexts(activity + [item]) == MessageTexts(activity) + if item.MessageItem? then item.text else ""
  {
    assert (activity + [item])[..|activity|] == activity;
  }

  lemma AddTextAppends(activity: seq<Activity>, e: Event, text: string, message: string)
    ensures MessageTexts(AddText(activity, e, text, message)) == MessageTexts(activity) + text
  {
    var n := |activity|;
    if n > 0 && activity[n - 1].MessageItem? && (message == "" || activity[n - 1].id == message) {
      MessageSnoc(activity[..n - 1], MessageItem(activity[n - 1].id, activity[n - 1].text + text));
      assert MessageTexts(activity) == MessageTexts(activity[..n - 1]) + activity[n - 1].text;
    } else {
      var number := Numerals.Digits(if e.number < 0 then 0 else e.number);
      MessageSnoc(activity, MessageItem(if message != "" then message else e.turn + "-" + number, text));
    }
  }

  lemma ApplyText(s: Live, e: Event)
    requires MessageTexts(s.activity) == s.text && !e.body.Completed?
    ensures var t := Apply(s, e);
      t.text == s.text + (if e.body.Delta? then e.body.text else "") && MessageTexts(t.activity) == t.text
  {
    match e.body {
      case Delta(text, message) => AddTextAppends(s.activity, e, text, message);
      case ToolStarted(_) => ToolKeepsText(s, e);
      case ToolFinished(_) => ToolKeepsText(s, e);
      case _ =>
    }
  }

  lemma ToolKeepsText(s: Live, e: Event)
    requires e.body.ToolStarted? || e.body.ToolFinished?
    ensures Apply(s, e).text == s.text && MessageTexts(Apply(s, e).activity) == MessageTexts(s.activity)
  {
    MessageSnoc(s.activity, ToolItem(e.body.tool.id));
  }

  /** Until a turn completes, its text is all its deltas in order, and so is what the message
      items of the activity show, however tools come in between. */
  lemma {:induction false} TextIsShown(es: seq<Event>, turn: string)
    requires Log(es, turn) && forall i | 0 <= i < |es| :: !es[i].body.Completed?
    ensures Fold(EMPTY, es).text == Deltas(es) && MessageTexts(Fold(EMPTY, es).activity) == Deltas(es)
  {
    if es != [] {
      var before, e := es[..|es| - 1], es[|es| - 1];
      TextIsShown(before, turn);
      if before != [] { FoldPosition(EMPTY, before, turn); }
      var s := Fold(EMPTY, before);
      ApplyText((if e.turn != s.turn then EMPTY else s).(turn := e.turn, number := e.number), e);
    }
  }
}
