/** The paged public record of a session (`Store.Conversation` in internal/store/conversation.go). */
module Conversations {
  import opened Options

  const LIMIT := 24000
  const HALF := LIMIT / 2

  /** `rest` is what a message's encoding costs besides the characters of its text. */
  datatype Message = Message(turn: string, role: string, text: string, rest: nat)

  /** Events matter by kind and by the size of their data. */
  datatype Event = Bound(bytes: nat) | Card(bytes: nat) | Tool(decodes: bool, bytes: nat) | Other

  datatype Turn = Turn(
    id: string, messages: seq<Message>, context: Option<nat>, cards: seq<nat>, tools: seq<nat>, truncated: bool)

  datatype Page = Page(turns: seq<Turn>, next: string)

  /** The lengths of encodings: of one character, of a turn's frame and of a page's frame with its
      cursor. */
  datatype Costs = Costs(character: char -> nat, turn: string -> nat, page: nat, cursor: string -> nat)

  // ----- sizes -----

  function TextBytes(c: Costs, text: string): nat {
    if text == "" then 0 else TextBytes(c, text[..|text| - 1]) + c.character(text[|text| - 1])
  }

  function MessageBytes(c: Costs, ms: seq<Message>): nat {
    if ms == [] then 0 else MessageBytes(c, ms[..|ms| - 1]) + ms[|ms| - 1].rest + TextBytes(c, ms[|ms| - 1].text)
  }

  function Sum(ns: seq<nat>): nat { if ns == [] then 0 else Sum(ns[..|ns| - 1]) + ns[|ns| - 1] }

  function Bytes(c: Costs, t: Turn): nat {
    c.turn(t.id) + MessageBytes(c, t.messages) + (if t.context.Some? then t.context.value else 0)
    + Sum(t.cards) + Sum(t.tools) + (if t.truncated then 17 else 0)
  }

  function TurnsBytes(c: Costs, ts: seq<Turn>): nat {
    if ts == [] then 0 else 1 + Bytes(c, ts[0]) + TurnsBytes(c, ts[1..])
  }

  function PageBytes(c: Costs, p: Page): nat {
    c.page + TurnsBytes(c, p.turns) + if p.next != "" then c.cursor(p.next) else 0
  }

  // ----- one turn -----

  function Kept(ms: seq<Message>): seq<Message> {
    if ms == [] then []
    else
      var m := ms[|ms| - 1];
      Kept(ms[..|ms| - 1]) + if m.role == "user" || m.role == "assistant"
                             then [m.(text := if |m.text| > 2000 then m.text[..2000] else m.text)] else []
  }

  function AnyCut(ms: seq<Message>): bool {
    exists i :: 0 <= i < |ms| && (ms[i].role == "user" || ms[i].role == "assistant") && |ms[i].text| > 2000
  }

  function Note(t: Turn, e: Event): (r: Turn)
    ensures r.id == t.id
  {
    match e
    case Bound(n) => if n <= 2500 then t.(context := Some(n)) else t.(truncated := true)
    case Card(n) => if n <= 4000 && |t.cards| < 3 then t.(cards := t.cards + [n]) else t.(truncated := true)
    case Tool(decodes, n) => if decodes && |t.tools| < 12 then t.(tools := t.tools + [n]) else t.(truncated := true)
    case Other => t
  }

  function NoteAll(t: Turn, es: seq<Event>): (r: Turn)
    ensures r.id == t.id
  {
    if es == [] then t else Note(NoteAll(t, es[..|es| - 1]), es[|es| - 1])
  }

  function Bare(t: Turn): Turn { t.(context := None, cards := [], tools := [], truncated := true) }

  function Full(id: string, ms: seq<Message>, es: seq<Event>): Turn {
    NoteAll(Turn(id, Kept(ms), None, [], [], AnyCut(ms)), es)
  }

  function Lightened(c: Costs, t: Turn): Turn { if Bytes(c, t) > HALF then Bare(t) else t }

  function HalveTexts(ms: seq<Message>): (r: seq<Message>)
    ensures |r| == |ms|
  {
    seq(|ms|, i requires 0 <= i < |ms| => ms[i].(text := ms[i].text[..|ms[i].text| / 2]))
  }

  function Halve(t: Turn): Turn { t.(messages := HalveTexts(t.messages), truncated := true) }

  function Blank(ms: seq<Message>): (r: seq<Message>)
    ensures |r| == |ms|
  {
    seq(|ms|, i requires 0 <= i < |ms| => ms[i].(text := ""))
  }

  /** What repeated halving comes down to. */
  function Emptied(t: Turn): Turn { t.(messages := Blank(t.messages), truncated := true) }

  function Runes(ms: seq<Message>): nat { if ms == [] then 0 else Runes(ms[..|ms| - 1]) + |ms[|ms| - 1].text| }

  /** The halving loop ends. */
  predicate CanTrim(c: Costs, t: Turn) { Bytes(c, t) <= HALF || Bytes(c, Emptied(t)) <= HALF }

  function Trim(c: Costs, t: Turn): (r: Turn)
    requires CanTrim(c, t)
    ensures Bytes(c, r) <= HALF && r.id == t.id
    decreases Runes(t.messages)
  {
    if Bytes(c, t) <= HALF then t
    else
      HalveSteps(c, t);
      Trim(c, Halve(t))
  }

  function Halved(t: Turn, n: nat): Turn { if n == 0 then t else Halve(Halved(t, n - 1)) }

  lemma {:induction false} HalveRunes(ms: seq<Message>)
    ensures Runes(HalveTexts(ms)) <= Runes(ms) / 2
  {
    if ms != [] {
      var n := |ms| - 1;
      HalveRunes(ms[..n]);
      assert HalveTexts(ms)[..n] == HalveTexts(ms[..n]);
    }
  }

  lemma {:induction false} NoRunes(ms: seq<Message>)
    requires Runes(ms) == 0
    ensures Blank(ms) == ms
  {
    if ms != [] {
      NoRunes(ms[..|ms| - 1]);
      assert Blank(ms)[..|ms| - 1] == Blank(ms[..|ms| - 1]);
      assert ms == ms[..|ms| - 1] + [ms[|ms| - 1]];
      assert Blank(ms) == Blank(ms)[..|ms| - 1] + [Blank(ms)[|ms| - 1]];
    }
  }

  /** Halving shortens the texts, and does not change what halving comes down to. */
  lemma HalveSteps(c: Costs, t: Turn)
    ensures Emptied(Halve(t)) == Emptied(t)
    ensures Bytes(c, t) > HALF && CanTrim(c, t) ==> Runes(Halve(t).messages) < Runes(t.messages)
    ensures CanTrim(c, t) ==> CanTrim(c, Halve(t)) || Bytes(c, t) <= HALF
  {
    assert Blank(HalveTexts(t.messages)) == Blank(t.messages);
    HalveRunes(t.messages);
    if Runes(t.messages) == 0 { NoRunes(t.messages); }
  }

  lemma {:induction false} BlankIsLeast(c: Costs, ms: seq<Message>)
    ensures MessageBytes(c, Blank(ms)) <= MessageBytes(c, ms)
  {
    if ms != [] {
      BlankIsLeast(c, ms[..|ms| - 1]);
      assert Blank(ms)[..|ms| - 1] == Blank(ms[..|ms| - 1]);
    }
  }

  lemma {:induction false} HalvedForever(c: Costs, t: Turn, n: nat)
    requires n > 0
    ensures Bytes(c, Halved(t, n)) >= Bytes(c, Emptied(t))
  {
    var s := Halved(t, n - 1);
    assert Emptied(s) == Emptied(t) by { HalvedEmptied(c, t, n - 1); }
    HalveSteps(c, s);
    BlankIsLeast(c, Halve(s).messages);
    assert Blank(HalveTexts(s.messages)) == Blank(s.messages);
  }

  lemma {:induction false} HalvedEmptied(c: Costs, t: Turn, n: nat)
    ensures Emptied(Halved(t, n)) == Emptied(t)
  {
    if n > 0 { HalvedEmptied(c, t, n - 1); HalveSteps(c, Halved(t, n - 1)); }
  }

  lemma {:induction false} TrimReached(c: Costs, t: Turn) returns (n: nat)
    requires CanTrim(c, t)
    ensures Halved(t, n) == Trim(c, t) && n <= Runes(t.messages)
    decreases Runes(t.messages)
  {
    n := 0;
    if Bytes(c, t) > HALF {
      HalveSteps(c, t);
      var m := TrimReached(c, Halve(t));
      HalveFirst(t, m);
      n := m + 1;
    }
  }

  lemma {:induction false} HalveFirst(t: Turn, n: nat)
    ensures Halved(Halve(t), n) == Halved(t, n + 1)
  {
    if n > 0 { HalveFirst(t, n - 1); }
  }

  /** The halving loop ends exactly when the turn is small already or its frame without any text
      is small: with a larger frame it would halve empty texts for ever. */
  lemma TrimmingEndsIff(c: Costs, t: Turn)
    ensures CanTrim(c, t) <==> exists n :: Bytes(c, Halved(t, n)) <= HALF
  {
    if CanTrim(c, t) {
      var n := TrimReached(c, t);
      assert Bytes(c, Halved(t, n)) <= HALF;
    }
    if n :| Bytes(c, Halved(t, n)) <= HALF {
      if n > 0 { HalvedForever(c, t, n); }
    }
  }

  /** It ends for every turn with at most two messages whose frames are not huge. */
  lemma TwoMessagesSuffice(c: Costs, t: Turn)
    requires |t.messages| <= 2 && c.turn(t.id) <= 1900 && forall m | m in t.messages :: m.rest <= 5000
    ensures CanTrim(c, Lightened(c, t))
  {
    if Bytes(c, t) > HALF {
      var ms := Blank(t.messages);
      forall i | 0 <= i < |ms| ensures ms[i].rest <= 5000 && ms[i].text == "" { assert t.messages[i] in t.messages; }
      FrameBytes(c, ms, 5000);
    }
  }

  lemma {:induction false} FrameBytes(c: Costs, ms: seq<Message>, most: nat)
    requires forall i | 0 <= i < |ms| :: ms[i].rest <= most && ms[i].text == ""
    ensures MessageBytes(c, ms) <= |ms| * most
  {
    if ms != [] {
      FrameBytes(c, ms[..|ms| - 1], most);
      assert |ms| * most == (|ms| - 1) * most + most;
    }
  }

  // ----- sessions -----

  function TurnIds(ms: seq<Message>): seq<string> {
    if ms == [] then []
    else
      var ids, m := TurnIds(ms[..|ms| - 1]), ms[|ms| - 1];
      if m.turn in ids then ids else ids + [m.turn]
  }

  function Of(ms: seq<Message>, id: string): seq<Message> {
    if ms == [] then []
    else Of(ms[..|ms| - 1], id) + if ms[|ms| - 1].turn == id then [ms[|ms| - 1]] else []
  }

  function Shown(c: Costs, ms: seq<Message>, events: string -> seq<Event>, id: string): Turn {
    Lightened(c, Full(id, Of(ms, id), events(id)))
  }

  predicate Trimmable(c: Costs, ms: seq<Message>, events: string -> seq<Event>, ids: seq<string>) {
    forall i | 0 <= i < |ids| :: CanTrim(c, Shown(c, ms, events, ids[i]))
  }

  function Settled(c: Costs, t: Turn): (r: Turn)
    ensures r.id == t.id && (CanTrim(c, t) ==> Bytes(c, r) <= HALF)
  {
    if CanTrim(c, t) then Trim(c, t) else t
  }

  /** The session's turns, oldest first, each ready to be shown. */
  function Ready(c: Costs, ms: seq<Message>, events: string -> seq<Event>, ids: seq<string>): (h: seq<Turn>)
    ensures |h| == |ids|
  {
    seq(|ids|, i requires 0 <= i < |ids| => Settled(c, Shown(c, ms, events, ids[i])))
  }

  /** The page that runs from turn `i` to before turn `end`. */
  function PageOf(h: seq<Turn>, i: nat, end: nat): Page
    requires i <= end <= |h|
  {
    Page(h[i..end], if 0 < i < end then h[i].id else "")
  }

  function Fits(c: Costs): Page -> bool { (p: Page) => PageBytes(c, p) <= LIMIT && |p.turns| <= 6 }

  /** How far back the greedy page that has reached `i` goes. */
  function Oldest(fits: Page -> bool, h: seq<Turn>, i: nat, end: nat): (k: nat)
    requires i <= end <= |h|
    ensures k <= i
    decreases i
  {
    if i > 0 && fits(PageOf(h, i - 1, end)) then Oldest(fits, h, i - 1, end) else i
  }

  function PageBefore(fits: Page -> bool, h: seq<Turn>, end: nat): Page
    requires end <= |h|
  {
    PageOf(h, Oldest(fits, h, end, end), end)
  }

  function Find(h: seq<Turn>, id: string): (i: nat)
    ensures i <= |h| && (forall k | 0 <= k < i :: h[k].id != id) && (i < |h| ==> h[i].id == id)
  {
    if h == [] || h[0].id == id then 0 else 1 + Find(h[1..], id)
  }

  function End(h: seq<Turn>, before: string): (i: nat)
    ensures i <= |h|
  {
    if before == "" then |h| else Find(h, before)
  }

  /** The page a request gets; an unknown cursor is an error. */
  function Answer(fits: Page -> bool, h: seq<Turn>, before: string): Option<Page> {
    if before != "" && Find(h, before) == |h| then None else Some(PageBefore(fits, h, End(h, before)))
  }

  method Conversation(c: Costs, messages: seq<Message>, events: string -> seq<Event>, before: string)
    returns (r: Option<Page>)
    requires Trimmable(c, messages, events, TurnIds(messages))
    ensures r == Answer(Fits(c), Ready(c, messages, events, TurnIds(messages)), before)
  {
    var ids, byTurn := GroupMessages(messages);
    ghost var h := Ready(c, messages, events, ids);
    var end := |ids|;
    if before != "" {
      end := FindId(ids, before, h);
      if end == |ids| { return None; }
    }
    var page := WalkBack(c, ids, byTurn, events, end, h);
    return Some(page);
  }

  lemma PageCons(h: seq<Turn>, i: nat, end: nat)
    requires 0 < i <= end <= |h|
    ensures PageOf(h, i - 1, end) == Page([h[i - 1]] + PageOf(h, i, end).turns, if i - 1 > 0 then h[i - 1].id else "")
  {
    assert h[i - 1..end] == [h[i - 1]] + h[i..end];
  }

  method WalkBack(c: Costs, ids: seq<string>, byTurn: map<string, seq<Message>>, events: string -> seq<Event>,
                  end: nat, ghost h: seq<Turn>)
    returns (page: Page)
    requires end <= |ids| == |h| && forall i | 0 <= i < |ids| :: ids[i] in byTurn && h[i].id == ids[i]
    requires forall i | 0 <= i < |ids| :: var t := Lightened(c, Full(ids[i], byTurn[ids[i]], events(ids[i])));
      CanTrim(c, t) && h[i] == Settled(c, t)
    ensures page == PageBefore(Fits(c), h, end)
  {
    page := Page([], "");
    var i := end;
    while i > 0
      invariant 0 <= i <= end && page == PageOf(h, i, end)
      invariant Oldest(Fits(c), h, end, end) == Oldest(Fits(c), h, i, end)
    {
      var id := ids[i - 1];
      var turn := ProjectTurn(c, id, byTurn[id], events(id));
      var candidate := Page([turn] + page.turns, if i - 1 > 0 then id else "");
      PageCons(h, i, end);
      if !Fits(c)(candidate) { break; }
      page := candidate;
      i := i - 1;
    }
  }

  method GroupMessages(messages: seq<Message>) returns (ids: seq<string>, byTurn: map<string, seq<Message>>)
    ensures ids == TurnIds(messages)
    ensures forall i | 0 <= i < |ids| :: ids[i] in byTurn && byTurn[ids[i]] == Of(messages, ids[i])
  {
    ids, byTurn := [], map[];
    for k := 0 to |messages|
      invariant ids == TurnIds(messages[..k])
      invariant forall id :: id in ids <==> id in byTurn
      invariant forall id :: Of(messages[..k], id) == if id in byTurn then byTurn[id] else []
    {
      var m := messages[k];
      assert messages[..k + 1][..k] == messages[..k];
      if m.turn !in byTurn { ids := ids + [m.turn]; }
      byTurn := byTurn[m.turn := (if m.turn in byTurn then byTurn[m.turn] else []) + [m]];
    }
    assert messages[..|messages|] == messages;
  }

  method FindId(ids: seq<string>, before: string, ghost h: seq<Turn>) returns (end: nat)
    requires |h| == |ids| && forall i | 0 <= i < |h| :: h[i].id == ids[i]
    ensures end == Find(h, before)
  {
    end := 0;
    while end < |ids| && ids[end] != before
      invariant end <= |ids| && forall k | 0 <= k < end :: h[k].id != before
    {
      end := end + 1;
    }
  }

  method ProjectTurn(c: Costs, id: string, messages: seq<Message>, events: seq<Event>) returns (turn: Turn)
    requires CanTrim(c, Lightened(c, Full(id, messages, events)))
    ensures turn == Settled(c, Lightened(c, Full(id, messages, events)))
  {
    turn := Turn(id, [], None, [], [], false);
    for k := 0 to |messages|
      invariant turn == Turn(id, Kept(messages[..k]), None, [], [], AnyCut(messages[..k]))
    {
      var m := messages[k];
      assert messages[..k + 1][..k] == messages[..k];
      CutSnoc(messages, k);
      if m.role == "user" || m.role == "assistant" {
        if |m.text| > 2000 {
          m := m.(text := m.text[..2000]);
          turn := turn.(truncated := true);
        }
        turn := turn.(messages := turn.messages + [m]);
      }
    }
    assert messages[..|messages|] == messages;
    ghost var start := turn;
    for k := 0 to |events|
      invariant turn == NoteAll(start, events[..k])
    {
      assert events[..k + 1][..k] == events[..k];
      turn := Note(turn, events[k]);
    }
    assert events[..|events|] == events;
    if Bytes(c, turn) > HALF { turn := Bare(turn); }
    ghost var goal := Trim(c, turn);
    while Bytes(c, turn) > HALF
      invariant CanTrim(c, turn) && Trim(c, turn) == goal
      decreases Runes(turn.messages)
    {
      HalveSteps(c, turn);
      turn := Halve(turn);
    }
  }

  lemma CutSnoc(ms: seq<Message>, k: nat)
    requires k < |ms|
    ensures var m := ms[k];
      AnyCut(ms[..k + 1]) == (AnyCut(ms[..k]) || ((m.role == "user" || m.role == "assistant") && |m.text| > 2000))
  {
    var more, less := ms[..k + 1], ms[..k];
    if i :| 0 <= i < |more| && (more[i].role == "user" || more[i].role == "assistant") && |more[i].text| > 2000 {
      if i < k { assert less[i] == more[i]; }
    }
    if i :| 0 <= i < |less| && (less[i].role == "user" || less[i].role == "assistant") && |less[i].text| > 2000 {
      assert more[i] == less[i];
    }
    assert more[k] == ms[k];
  }

  // ----- following the cursor -----

  predicate Different(h: seq<Turn>) { forall i, j | 0 <= i < j < |h| :: h[i].id != h[j].id }

  predicate NoRepeats(ids: seq<string>) { forall i, j | 0 <= i < j < |ids| :: ids[i] != ids[j] }

  lemma {:induction false} IdsDiffer(ms: seq<Message>)
    ensures NoRepeats(TurnIds(ms))
  {
    if ms != [] { IdsDiffer(ms[..|ms| - 1]); }
  }

  lemma FindAt(h: seq<Turn>, i: nat)
    requires Different(h) && i < |h|
    ensures Find(h, h[i].id) == i
  {}

  function Single(h: seq<Turn>, i: nat): Page
    requires i < |h|
  {
    PageOf(h, i, i + 1)
  }

  /** A page of a single turn always fits. */
  predicate Roomy(fits: Page -> bool, h: seq<Turn>) { forall i | 0 <= i < |h| :: fits(Single(h, i)) }

  predicate Named(h: seq<Turn>) { Different(h) && forall i | 0 <= i < |h| :: h[i].id != "" }

  lemma {:induction false} OldestFits(fits: Page -> bool, h: seq<Turn>, i: nat, end: nat)
    requires i < end <= |h| && fits(PageOf(h, i, end))
    ensures fits(PageOf(h, Oldest(fits, h, i, end), end))
    decreases i
  {
    if i > 0 && fits(PageOf(h, i - 1, end)) { OldestFits(fits, h, i - 1, end); }
  }

  /** Every page fits, and holds at least one turn as long as one is left. */
  lemma PagesFit(fits: Page -> bool, h: seq<Turn>, end: nat)
    requires Roomy(fits, h) && 0 < end <= |h|
    ensures Oldest(fits, h, end, end) < end && fits(PageOf(h, Oldest(fits, h, end, end), end))
  {
    assert fits(Single(h, end - 1));
    OldestFits(fits, h, end - 1, end);
  }

  /** The pages a reader gets who starts at `before` and follows `next` until it is empty, or
      `n` requests have been made. */
  function Follow(fits: Page -> bool, h: seq<Turn>, before: string, n: nat): seq<Page>
    decreases n
  {
    if n == 0 then []
    else
      match Answer(fits, h, before)
      case None => []
      case Some(p) => [p] + if p.next == "" then [] else Follow(fits, h, p.next, n - 1)
  }

  /** All turns of a reading, oldest first. */
  function Collected(ps: seq<Page>): seq<Turn> {
    if ps == [] then [] else Collected(ps[1..]) + ps[0].turns
  }

  ghost predicate Good(fits: Page -> bool, ps: seq<Page>) { forall p | p in ps :: fits(p) && p.turns != [] }

  /** `ps` shows the first `end` turns once each, in order, in good pages, and ends. */
  ghost predicate Reading(fits: Page -> bool, h: seq<Turn>, end: nat, ps: seq<Page>)
    requires end <= |h|
  {
    Collected(ps) == h[..end] && Good(fits, ps) && 1 <= |ps| <= end && ps[|ps| - 1].next == ""
  }

  lemma ReadLast(fits: Page -> bool, h: seq<Turn>, end: nat, p: Page)
    requires 0 < end <= |h| && p == PageOf(h, 0, end) && fits(p)
    ensures Reading(fits, h, end, [p])
  {
    assert [p][1..] == [];
    assert Collected([p]) == h[..end];
  }

  lemma ReadMore(fits: Page -> bool, h: seq<Turn>, k: nat, end: nat, p: Page, more: seq<Page>)
    requires 0 < k < end <= |h| && p == PageOf(h, k, end) && fits(p) && Reading(fits, h, k, more)
    ensures Reading(fits, h, end, [p] + more)
  {
    assert ([p] + more)[1..] == more;
    assert h[..k] + h[k..end] == h[..end];
  }

  /** Reading on from any turn shows all earlier turns, once each and in order, in pages that fit
      and are never empty, and ends. */
  lemma {:induction false} FollowFrom(fits: Page -> bool, h: seq<Turn>, before: string, n: nat)
    requires Roomy(fits, h) && Named(h)
    requires n >= End(h, before) > 0 && (before == "" || End(h, before) < |h|)
    ensures Reading(fits, h, End(h, before), Follow(fits, h, before, n))
    decreases n
  {
    var end := End(h, before);
    var k := Oldest(fits, h, end, end);
    var p := PageBefore(fits, h, end);
    PagesFit(fits, h, end);
    if k == 0 {
      ReadLast(fits, h, end, p);
      FollowLast(fits, h, before, n, p);
    } else {
      FindAt(h, k);
      FollowFrom(fits, h, h[k].id, n - 1);
      ReadMore(fits, h, k, end, p, Follow(fits, h, p.next, n - 1));
      FollowMore(fits, h, before, n, p);
    }
  }

  lemma FollowLast(fits: Page -> bool, h: seq<Turn>, before: string, n: nat, p: Page)
    requires n > 0 && Answer(fits, h, before) == Some(p) && p.next == ""
    ensures Follow(fits, h, before, n) == [p]
  {
    assert [p] + [] == [p];
  }

  lemma FollowMore(fits: Page -> bool, h: seq<Turn>, before: string, n: nat, p: Page)
    requires n > 0 && Answer(fits, h, before) == Some(p) && p.next != ""
    ensures Follow(fits, h, before, n) == [p] + Follow(fits, h, p.next, n - 1)
  {}

  /** Frames and cursors of pages leave room for one turn of the size trimming allows. */
  predicate ShortIds(c: Costs, ids: seq<string>) {
    forall i | 0 <= i < |ids| :: ids[i] != "" && c.page + 1 + c.cursor(ids[i]) <= HALF
  }

  lemma ReadyIsRoomy(c: Costs, ms: seq<Message>, events: string -> seq<Event>, ids: seq<string>)
    requires Trimmable(c, ms, events, ids) && ShortIds(c, ids)
    ensures Roomy(Fits(c), Ready(c, ms, events, ids))
  {
    var h := Ready(c, ms, events, ids);
    forall i | 0 <= i < |h| ensures Fits(c)(Single(h, i)) {
      assert h[i].id == ids[i] && Bytes(c, h[i]) <= HALF;
      OneTurnBytes(c, Single(h, i), h[i]);
    }
  }

  lemma OneTurnBytes(c: Costs, p: Page, t: Turn)
    requires p.turns == [t]
    ensures PageBytes(c, p) == c.page + 1 + Bytes(c, t) + if p.next != "" then c.cursor(p.next) else 0
  {
    assert TurnsBytes(c, p.turns[1..]) == 0;
  }

  /** `ps` shows every turn exactly once, in order, in small pages, and ends. */
  ghost predicate Partition(c: Costs, h: seq<Turn>, ps: seq<Page>) {
    Collected(ps) == h && 1 <= |ps| && ps[|ps| - 1].next == "" && forall p | p in ps :: SmallPage(c, p)
  }

  /** Following the cursor from the newest page visits every turn of the session exactly once, in
      order, and ends; every page has at least one turn, at most six, and at most 24000 bytes. */
  lemma PagesPartitionHistory(c: Costs, ms: seq<Message>, events: string -> seq<Event>)
    requires Trimmable(c, ms, events, TurnIds(ms)) && ShortIds(c, TurnIds(ms)) && ms != []
    ensures var h := Ready(c, ms, events, TurnIds(ms)); Partition(c, h, Follow(Fits(c), h, "", |h|))
  {
    IdsDiffer(ms);
    SessionHasTurns(ms);
    PagesOfTurns(c, ms, events, TurnIds(ms));
  }

  lemma PagesOfTurns(c: Costs, ms: seq<Message>, events: string -> seq<Event>, ids: seq<string>)
    requires Trimmable(c, ms, events, ids) && ShortIds(c, ids) && NoRepeats(ids) && ids != []
    ensures var h := Ready(c, ms, events, ids); Partition(c, h, Follow(Fits(c), h, "", |h|))
  {
    FitsLimits(c);
    ReadyIsRoomy(c, ms, events, ids);
    ReadyIsNamed(c, ms, events, ids);
    PagesPartition(c, Fits(c), Ready(c, ms, events, ids));
  }

  lemma ReadyIsNamed(c: Costs, ms: seq<Message>, events: string -> seq<Event>, ids: seq<string>)
    requires ShortIds(c, ids) && NoRepeats(ids)
    ensures Named(Ready(c, ms, events, ids))
  {}

  predicate SmallPage(c: Costs, p: Page) { PageBytes(c, p) <= LIMIT && 1 <= |p.turns| <= 6 }

  /** Names a page whose size matters. */
  ghost predicate Delivered(p: Page) { true }

  /** Pages that fit and are not empty are small. */
  ghost predicate Limits(c: Costs, fits: Page -> bool) {
    forall p: Page {:trigger Delivered(p)} :: Delivered(p) && fits(p) && p.turns != [] ==> SmallPage(c, p)
  }

  lemma FitsLimits(c: Costs)
    ensures Limits(c, Fits(c))
  {}

  lemma GoodIsSmall(c: Costs, fits: Page -> bool, ps: seq<Page>)
    requires Limits(c, fits) && Good(fits, ps)
    ensures forall p | p in ps :: SmallPage(c, p)
  {
    forall p | p in ps ensures SmallPage(c, p) { assert Delivered(p); }
  }

  lemma PagesPartition(c: Costs, fits: Page -> bool, h: seq<Turn>)
    requires Limits(c, fits) && Roomy(fits, h) && Named(h) && h != []
    ensures Partition(c, h, Follow(fits, h, "", |h|))
  {
    FollowFrom(fits, h, "", |h|);
    GoodIsSmall(c, fits, Follow(fits, h, "", |h|));
    assert h[..|h|] == h;
  }

  lemma SessionHasTurns(ms: seq<Message>)
    requires ms != []
    ensures TurnIds(ms) != []
  {}
}
