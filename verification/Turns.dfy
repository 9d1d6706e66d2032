/** Events of a turn and how the host numbers, stores and emits them (`turn.event` in
    internal/agenthost/host.go). */
module Turns {
  import opened Options

  datatype Card = Card(id: string, kind: string, pending: bool, content: string)
  datatype Tool = Tool(id: string, fields: map<string, string>)
  datatype Result = Result(status: string, text: string, cards: seq<Card>, elapsed: int, error: Option<string>)

  /** The event types, each with its data. */
  datatype Body =
    | Reset
    | Started
    | Bound(context: string)
    | Delta(text: string, message: string)
    | Upsert(card: Card)
    | Partial(part: Card)
    | ToolStarted(tool: Tool)
    | ToolFinished(tool: Tool)
    | Progress(note: string)
    | Completed(result: Result)
    | Other

  datatype Event = Event(version: string, turn: string, number: int, at: string, body: Body)

  /** A turn's log: numbered from one without gaps, opened by the start of the turn. */
  ghost predicate Log(es: seq<Event>, turn: string) {
    && turn != ""
    && (forall i | 0 <= i < |es| :: es[i].turn == turn && es[i].version == "1" && es[i].number == i + 1)
    && (forall i | 0 <= i < |es| :: !es[i].body.Reset?)
    && (es != [] ==> es[0].body.Started?)
  }

  class Turn {
    const id: string
    var number: int
    var failed: bool
    var stored: seq<Event>
    var emitted: seq<Event>

    constructor (id: string)
      requires id != ""
      ensures Valid() && emitted == [] && !failed && this.id == id
    {
      this.id := id;
      number, failed, stored, emitted := 0, false, [], [];
    }

    /** Unless storing failed, the number counts the stored events, and what was emitted is what
        was stored: 1, 2, 3 and so on, of this turn. */
    ghost predicate Valid()
      reads this
    {
      && emitted == stored
      && (failed || number == |stored|)
      && forall i | 0 <= i < |stored| :: stored[i].turn == id && stored[i].version == "1" && stored[i].number == i + 1
    }

    /** `encodes` and `saves` say whether encoding the data and storing the event succeed. */
    method Emit(body: Body, at: string, encodes: bool, saves: bool)
      requires Valid()
      modifies this
      ensures Valid()
      ensures failed == (old(failed) || !encodes || !saves)
      ensures emitted == old(emitted) + if failed then [] else [Event("1", id, |old(emitted)| + 1, at, body)]
    {
      if failed { return; }
      if !encodes { failed := true; return; }
      number := number + 1;
      if !saves { failed := true; return; }
      var e := Event("1", id, number, at, body);
      stored := stored + [e];
      emitted := emitted + [e];
    }
  }

  /** A valid turn that opened with its start has a log, whatever failed on the way. */
  lemma TurnsHaveLogs(t: Turn)
    requires t.Valid() && t.id != "" && (t.emitted != [] ==> t.emitted[0].body.Started?)
    requires forall e | e in t.emitted :: !e.body.Reset?
    ensures Log(t.emitted, t.id)
  {}
}
