/** What the browser shows of a log, told from the log alone: for every part of the picture, which
    events it comes from. */
module Screens {
  import opened Options
  import opened Turns
  import opened Replay

  // ----- what the log says -----

  function CardOf(b: Body): Option<Card> {
    match b
    case Upsert(card) => Some(card)
    case Partial(card) => if card.kind != "" then Some(card) else None
    case _ => None
  }

  /** The last version of a card. */
  function LastCard(es: seq<Event>, id: string): Option<Card> {
    if es == [] then None
    else
      var c := CardOf(es[|es| - 1].body);
      if c.Some? && c.value.id == id then c else LastCard(es[..|es| - 1], id)
  }

  function AddNew(ids: seq<string>, id: string): seq<string> { if id in ids then ids else ids + [id] }

  /** The cards in the order of their first versions. */
  function CardOrder(es: seq<Event>): seq<string> {
    if es == [] then []
    else
      var ids, c := CardOrder(es[..|es| - 1]), CardOf(es[|es| - 1].body);
      if c.Some? then AddNew(ids, c.value.id) else ids
  }

  /** What is known of a tool's latest call: its start, and whatever its end adds. */
  function LastCall(es: seq<Event>, id: string): Option<map<string, string>> {
    if es == [] then None
    else
      var before, e := LastCall(es[..|es| - 1], id), es[|es| - 1];
      match e.body
      case ToolStarted(tool) => if tool.id == id then Some(tool.fields["started_at" := e.at]) else before
      case ToolFinished(tool) =>
        if tool.id != id then before else if before.Some? then Some(before.value + tool.fields) else Some(tool.fields)
      case _ => before
  }

  function ToolOrder(es: seq<Event>): seq<string> {
    if es == [] then []
    else
      var ids, b := ToolOrder(es[..|es| - 1]), es[|es| - 1].body;
      if b.ToolStarted? || b.ToolFinished? then AddNew(ids, b.tool.id) else ids
  }

  function Notes(es: seq<Event>): seq<Note> {
    if es == [] then []
    else
      var before, e := Notes(es[..|es| - 1]), es[|es| - 1];
      if e.body.Progress? && e.body.note != "" then before + [Note(e.turn, e.number, e.body.note, e.at)] else before
  }

  function LastContext(es: seq<Event>): Option<string> {
    if es == [] then None
    else
      var b := es[|es| - 1].body;
      if b.Bound? then Some(b.context) else LastContext(es[..|es| - 1])
  }

  predicate Running(es: seq<Event>) { forall i | 0 <= i < |es| :: !es[i].body.Completed? }

  // ----- one more event -----

  /** The picture of a log is the picture before its last event, with that event applied. */
  lemma FoldStep(es: seq<Event>, turn: string) returns (before: seq<Event>, s: Live, e: Event)
    requires Log(es, turn) && es != []
    ensures es == before + [e] && before == es[..|es| - 1] && Log(before, turn)
    ensures s == Fold(EMPTY, before).(turn := turn, number := |es|) && Fold(EMPTY, es) == Apply(s, e)
  {
    before, e := es[..|es| - 1], es[|es| - 1];
    s := Fold(EMPTY, before).(turn := turn, number := |es|);
    LogPrefix(es, |es| - 1, turn);
    if before != [] { FoldPosition(EMPTY, before, turn); }
    NextEvent(Fold(EMPTY, before), e);
  }

  lemma NextEvent(s: Live, e: Event)
    requires e.turn != "" && e.version == "1" && !e.body.Reset?
    requires s == EMPTY || (s.turn == e.turn && s.number < e.number)
    ensures Reduce(s, e) == Apply(s.(turn := e.turn, number := e.number), e)
  {}

  /** What the events so far say of notes, context and status. */
  predicate Tells(s: Live, es: seq<Event>) {
    && s.elapsed.None? && s.error.None? && s.progress == Notes(es) && s.context == LastContext(es)
    && (es != [] ==> s.status == "running")
  }

  lemma StepTells(s: Live, es: seq<Event>, e: Event)
    requires Tells(s, es) && !e.body.Completed? && (es == [] ==> e.body.Started?)
    requires s.turn == e.turn && s.number == e.number
    ensures Tells(Apply(s, e), es + [e])
  {
    assert (es + [e])[..|es|] == es;
  }

  /** Notes, context, status and the marks of a completion. */
  lemma {:induction false} RunningPicture(es: seq<Event>, turn: string)
    requires Log(es, turn) && Running(es)
    ensures Tells(Fold(EMPTY, es), es)
  {
    if es != [] {
      var before, s, e := FoldStep(es, turn);
      RunningPicture(before, turn);
      StepTells(s, before, e);
    }
  }

  // ----- cards -----

  /** The latest version of every card, in the order of the first ones. */
  predicate Latest(cards: seq<Card>, es: seq<Event>) {
    && Ids(cards, CardId) == CardOrder(es)
    && forall i | 0 <= i < |cards| :: LastCard(es, cards[i].id) == Some(cards[i])
  }

  /** The cards on screen are the latest versions, each in the place of its first one. */
  lemma {:induction false} CardsAreLatest(es: seq<Event>, turn: string)
    requires Log(es, turn) && Running(es)
    ensures Latest(Fold(EMPTY, es).cards, es)
  {
    if es != [] {
      var before, s, e := FoldStep(es, turn);
      CardsAreLatest(before, turn);
      AlwaysTidy(before);
      StepCards(s, before, e);
    }
  }

  lemma StepCards(s: Live, es: seq<Event>, e: Event)
    requires Distinct(Ids(s.cards, CardId)) && !e.body.Completed? && Latest(s.cards, es)
    ensures Latest(Apply(s, e).cards, es + [e])
  {
    assert (es + [e])[..|es|] == es;
    if CardOf(e.body).Some? { CardLands(es, e, s.cards, CardOf(e.body).value); }
  }

  lemma CardLands(es: seq<Event>, e: Event, cards: seq<Card>, card: Card)
    requires Distinct(Ids(cards, CardId)) && Latest(cards, es) && CardOf(e.body) == Some(card)
    ensures Latest(UpsertCard(cards, card), es + [e])
  {
    UpsertKeepsPlaces(cards, card);
    assert (es + [e])[..|es|] == es;
    var r := UpsertCard(cards, card);
    forall i | 0 <= i < |r| ensures LastCard(es + [e], r[i].id) == Some(r[i]) {
      if r[i].id != card.id { assert r[i] == cards[i]; }
    }
  }

  // ----- tools -----

  predicate Knows(tools: seq<Tool>, es: seq<Event>, id: string) {
    match LastCall(es, id)
    case None => forall t | t in tools :: t.id != id
    case Some(fields) => Tool(id, fields) in tools && forall t | t in tools && t.id == id :: t.fields == fields
  }

  lemma {:induction false} KeptOf(tools: seq<Tool>, id: string)
    ensures forall t :: t in Keep(tools, Not(id)) <==> t in tools && t.id != id
  {
    if tools != [] {
      KeptOf(tools[..|tools| - 1], id);
      assert tools == tools[..|tools| - 1] + [tools[|tools| - 1]];
    }
  }

  lemma StartLands(s: Live, es: seq<Event>, e: Event, id: string)
    requires Knows(s.tools, es, id) && e.body.ToolStarted?
    ensures Knows(Apply(s, e).tools, es + [e], id)
  {
    assert (es + [e])[..|es|] == es;
    KeptOf(s.tools, e.body.tool.id);
    var tool := e.body.tool.(fields := e.body.tool.fields["started_at" := e.at]);
    assert Apply(s, e).tools == Keep(s.tools, Not(tool.id)) + [tool];
  }

  lemma FinishMembers(tools: seq<Tool>, tool: Tool)
    ensures forall t: Tool | t.id != tool.id :: t in FinishTool(tools, tool) <==> t in tools
    ensures forall t | t in FinishTool(tools, tool) && t.id == tool.id ::
      t == tool || exists u :: u in tools && u.id == tool.id && t == Merge(u, tool)
    ensures forall u | u in tools && u.id == tool.id :: Merge(u, tool) in FinishTool(tools, tool)
    ensures (forall u | u in tools :: u.id != tool.id) ==> FinishTool(tools, tool) == tools + [tool]
  {
    var r := FinishTool(tools, tool);
    forall t | t in tools && t.id != tool.id ensures t in r {
      var i :| 0 <= i < |tools| && tools[i] == t;
      assert r[i] == t;
    }
    forall u | u in tools && u.id == tool.id ensures Merge(u, tool) in r {
      var i :| 0 <= i < |tools| && tools[i] == u;
      assert r[i] == Merge(u, tool);
    }
  }

  lemma FinishLands(s: Live, es: seq<Event>, e: Event, id: string)
    requires Knows(s.tools, es, id) && e.body.ToolFinished?
    ensures Knows(Apply(s, e).tools, es + [e], id)
  {
    assert (es + [e])[..|es|] == es;
    FinishMembers(s.tools, e.body.tool);
    var r := Apply(s, e).tools;
    if e.body.tool.id == id && LastCall(es, id).Some? {
      var u := Tool(id, LastCall(es, id).value);
      assert Merge(u, e.body.tool) in r;
      FinishedOnly(s.tools, e.body.tool, LastCall(es, id).value);
    }
  }

  lemma FinishedOnly(tools: seq<Tool>, tool: Tool, fields: map<string, string>)
    requires Tool(tool.id, fields) in tools && forall t | t in tools && t.id == tool.id :: t.fields == fields
    ensures forall t | t in FinishTool(tools, tool) && t.id == tool.id :: t.fields == fields + tool.fields
  {
    var r := FinishTool(tools, tool);
    var k :| 0 <= k < |tools| && tools[k] == Tool(tool.id, fields);
    forall i | 0 <= i < |r| && r[i].id == tool.id ensures r[i].fields == fields + tool.fields {
      assert tools[i] in tools;
    }
  }

  /** A tool is on screen exactly when it was called, with all that its latest call told. */
  lemma {:induction false} ToolsAreLatest(es: seq<Event>, turn: string, id: string)
    requires Log(es, turn) && Running(es)
    ensures Knows(Fold(EMPTY, es).tools, es, id)
  {
    if es != [] {
      var before, s, e := FoldStep(es, turn);
      ToolsAreLatest(before, turn, id);
      StepTools(s, before, e, id);
    }
  }

  lemma StepTools(s: Live, es: seq<Event>, e: Event, id: string)
    requires Knows(s.tools, es, id)
    ensures Knows(Apply(s, e).tools, es + [e], id)
  {
    match e.body
    case ToolStarted(_) => StartLands(s, es, e, id);
    case ToolFinished(_) => FinishLands(s, es, e, id);
    case _ => assert (es + [e])[..|es|] == es;
  }

  // ----- the activity -----

  /** The tools of the activity. */
  function ToolItems(activity: seq<Activity>): seq<string> {
    if activity == [] then []
    else
      var before, last := ToolItems(activity[..|activity| - 1]), activity[|activity| - 1];
      if last.ToolItem? then before + [last.id] else before
  }

  lemma ToolItemsSnoc(activity: seq<Activity>, item: Activity)
    ensures ToolItems(activity + [item]) == ToolItems(activity) + if item.ToolItem? then [item.id] else []
  {
    assert (activity + [item])[..|activity|] == activity;
  }

  lemma {:induction false} ToolItemIn(activity: seq<Activity>, id: string)
    ensures id in ToolItems(activity) <==> ToolItem(id) in activity
  {
    if activity != [] {
      ToolItemIn(activity[..|activity| - 1], id);
      assert activity == activity[..|activity| - 1] + [activity[|activity| - 1]];
    }
  }

  lemma ShowToolAdds(activity: seq<Activity>, id: string)
    ensures ToolItems(ShowTool(activity, id)) == AddNew(ToolItems(activity), id)
  {
    ToolItemIn(activity, id);
    ToolItemsSnoc(activity, ToolItem(id));
  }

  lemma TextKeepsTools(activity: seq<Activity>, e: Event, text: string, message: string)
    ensures ToolItems(AddText(activity, e, text, message)) == ToolItems(activity)
  {
    var n, r := |activity|, AddText(activity, e, text, message);
    assert r == r[..|r| - 1] + [r[|r| - 1]];
    ToolItemsSnoc(r[..|r| - 1], r[|r| - 1]);
    if |r| == n {
      assert activity == activity[..n - 1] + [activity[n - 1]];
      ToolItemsSnoc(activity[..n - 1], activity[n - 1]);
    }
  }

  /** Tools have their places in the order in which they were first called. */
  lemma {:induction false} ToolsKeepOrder(es: seq<Event>, turn: string)
    requires Log(es, turn) && Running(es)
    ensures ToolItems(Fold(EMPTY, es).activity) == ToolOrder(es)
  {
    if es != [] {
      var before, s, e := FoldStep(es, turn);
      ToolsKeepOrder(before, turn);
      StepOrder(s, before, e);
    }
  }

  lemma StepOrder(s: Live, es: seq<Event>, e: Event)
    requires ToolItems(s.activity) == ToolOrder(es)
    ensures ToolItems(Apply(s, e).activity) == ToolOrder(es + [e])
  {
    assert (es + [e])[..|es|] == es;
    match e.body
    case ToolStarted(tool) => ShowToolAdds(s.activity, tool.id);
    case ToolFinished(tool) => ShowToolAdds(s.activity, tool.id);
    case Delta(text, message) => TextKeepsTools(s.activity, e, text, message);
    case _ =>
  }

  /** Two messages side by side are different messages. */
  predicate Apart(activity: seq<Activity>) {
    forall i | 0 <= i < |activity| - 1 && activity[i].MessageItem? && activity[i + 1].MessageItem? ::
      activity[i].id != activity[i + 1].id
  }

  /** Text goes on in the last message if it belongs there, and is never torn apart otherwise. */
  lemma TextLands(activity: seq<Activity>, e: Event, text: string, message: string)
    requires Apart(activity)
    ensures var r := AddText(activity, e, text, message); var n := |r| - 1;
      && Apart(r) && r[..n] == activity[..n] && r[n].MessageItem? && (message != "" ==> r[n].id == message)
      && r[n].text == (if n < |activity| then activity[n].text else "") + text
      && (n < |activity| <==> activity != [] && activity[|activity| - 1].MessageItem?
                              && (message == "" || activity[|activity| - 1].id == message))
  {}

  lemma {:induction false} MessagesApart(es: seq<Event>, turn: string)
    requires Log(es, turn) && Running(es)
    ensures Apart(Fold(EMPTY, es).activity)
  {
    if es != [] {
      var before, s, e := FoldStep(es, turn);
      MessagesApart(before, turn);
      StepApart(s, e);
    }
  }

  lemma StepApart(s: Live, e: Event)
    requires Apart(s.activity)
    ensures Apart(Apply(s, e).activity)
  {
    if e.body.Delta? { TextLands(s.activity, e, e.body.text, e.body.message); }
  }

  // ----- completion -----

  /** A completion takes over the result's status, text, error and time, and leaves tools, messages,
      notes and context alone. */
  lemma CompletionShown(s: Live, e: Event)
    requires e.version == "1" && e.turn == s.turn && e.number > s.number && e.body.Completed?
    ensures var t, r := Reduce(s, e), e.body.result;
      && t.status == r.status && t.text == r.text && t.error == r.error && t.elapsed == Some(r.elapsed)
      && t.tools == s.tools && t.activity == s.activity && t.progress == s.progress && t.context == s.context
  {}

  /** A result without cards keeps the cards on screen, but for placeholders. */
  lemma PlaceholdersGo(s: Live, e: Event, card: Card)
    requires e.version == "1" && e.turn == s.turn && e.number > s.number
    requires e.body.Completed? && e.body.result.cards == []
    ensures card in Reduce(s, e).cards <==> card in s.cards && !card.pending
  {
    SettledOnly(s.cards);
  }

  lemma {:induction false} SettledOnly(cards: seq<Card>)
    ensures forall card :: card in Keep(cards, Settled) <==> card in cards && !card.pending
  {
    if cards != [] {
      SettledOnly(cards[..|cards| - 1]);
      assert cards == cards[..|cards| - 1] + [cards[|cards| - 1]];
    }
  }

  // ----- what is let through -----

  /** A reset clears the picture; otherwise only events of version one change it: those of the
      running turn that are newer than the last one, and of other turns a start, or anything while
      no turn is running. */
  lemma OnlyNewsIsShown(s: Live, e: Event)
    ensures e.body.Reset? ==> Reduce(s, e) == EMPTY
    ensures Reduce(s, e) != s ==>
      || e.body.Reset?
      || (e.version == "1" && if e.turn == s.turn then e.number > s.number else s.turn == "" || e.body.Started?)
  {}
}
