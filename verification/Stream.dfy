/** The event stream of one turn: how the server prints events (internal/httpapi/server.go) and
    how the browser cuts the text back into events (`streamTurn` in web/src/api.ts). The frames
    are the part of section 9.2.6 of the WHATWG HTML standard that is used. */
module Stream {
  import opened Options
  import opened Numerals

  /** What `JSON.parse` makes of a payload: an event, an object without a type, or an exception. */
  datatype Parsed<+E> = Typed(event: E) | Untyped | Malformed

  /** The JSON encoding of events is a parameter. */
  datatype Codec<!E> = Codec(encode: E -> string, decode: string -> Parsed<E>, sequence: E -> nat, completes: E -> bool)

  const FAILURE := "{\"error\":\"turn_failed\"}"
  const LIMIT := 1_048_576

  /** Encoded events are single lines, and decoding gives back what was encoded. */
  ghost predicate Faithful<E(!new)>(c: Codec<E>) {
    && (forall e :: c.encode(e) != "" && '\n' !in c.encode(e) && c.decode(c.encode(e)) == Typed(e))
    && c.decode(FAILURE) == Untyped
  }

  // ----- the server's side -----

  const MESSAGE := "event: message"
  const ERROR := "event: error"
  const NEWLINE := "\n"
  const BREAK := "\n\n"

  function IdLine(n: nat): string { "id: " + Digits(n) }

  function DataLine(payload: string): string { "data: " + payload }

  function Body<E>(c: Codec<E>, e: E): string {
    IdLine(c.sequence(e)) + NEWLINE + (MESSAGE + NEWLINE + DataLine(c.encode(e)))
  }

  function Frame<E>(c: Codec<E>, e: E): string { Body(c, e) + BREAK }

  function Printed<E>(c: Codec<E>, es: seq<E>): string {
    if es == [] then "" else Frame(c, es[0]) + Printed(c, es[1..])
  }

  function ErrorBody(): string { ERROR + NEWLINE + DataLine(FAILURE) }

  function ErrorFrame(): string { ErrorBody() + BREAK }

  // ----- the browser's side -----

  predicate BreakAt(s: string, i: nat) { i + 1 < |s| && s[i] == '\n' && s[i + 1] == '\n' }

  /** `indexOf("\n\n")`, or the length when there is none. */
  function FirstBreak(s: string): (i: nat)
    ensures i <= |s| && forall j | 0 <= j < i :: !BreakAt(s, j)
    ensures i < |s| ==> BreakAt(s, i)
  {
    if s == "" then 0
    else if BreakAt(s, 0) then 0
    else
      var i := FirstBreak(s[1..]);
      assert forall j | 0 < j < 1 + i :: BreakAt(s, j) == BreakAt(s[1..], j - 1);
      1 + i
  }

  function FirstLine(s: string): (i: nat)
    ensures i <= |s| && '\n' !in s[..i] && (i < |s| ==> s[i] == '\n')
  {
    if s == "" || s[0] == '\n' then 0
    else
      var i := FirstLine(s[1..]);
      assert s[..1 + i] == [s[0]] + s[1..][..i];
      1 + i
  }

  /** `split("\n")`. */
  function Lines(s: string): seq<string> {
    var i := FirstLine(s);
    if i == |s| then [s] else [s[..i]] + Lines(s[i + 1..])
  }

  predicate IsData(line: string) { "data: " <= line }

  function DataLines(lines: seq<string>): seq<string> {
    if lines == [] then []
    else (if IsData(lines[0]) then [lines[0][6..]] else []) + DataLines(lines[1..])
  }

  function Join(lines: seq<string>): string {
    if lines == [] then "" else if |lines| == 1 then lines[0] else lines[0] + "\n" + Join(lines[1..])
  }

  function Payload(block: string): string { Join(DataLines(Lines(block))) }

  datatype Failure = TurnFailed | TooLarge | BadPayload

  datatype Client<+E> = Client(buffer: string, emitted: seq<E>, terminal: bool, failure: Option<Failure>)

  function Start<E>(): Client<E> { Client("", [], false, None) }

  /** What one complete block does to the client. */
  function Consume<E>(c: Codec<E>, s: Client<E>, raw: string): Client<E> {
    if raw == "" then s
    else
      match c.decode(raw)
      case Typed(e) => s.(emitted := s.emitted + [e], terminal := s.terminal || c.completes(e))
      case Untyped => if s.terminal then s else s.(failure := Some(TurnFailed))
      case Malformed => s.(failure := Some(BadPayload))
  }

  function Drain<E>(c: Codec<E>, s: Client<E>): Client<E>
    decreases |s.buffer|
  {
    var at := FirstBreak(s.buffer);
    if s.failure.Some? || at == |s.buffer| then s
    else Drain(c, Consume(c, s.(buffer := s.buffer[at + 2..]), Payload(s.buffer[..at])))
  }

  function Guard<E>(s: Client<E>): Client<E> {
    if s.failure.None? && |s.buffer| > LIMIT then s.(failure := Some(TooLarge)) else s
  }

  function Receive<E>(c: Codec<E>, s: Client<E>, chunk: string): Client<E> {
    if s.failure.Some? then s else Guard(Drain(c, s.(buffer := s.buffer + chunk)))
  }

  function ReceiveAll<E>(c: Codec<E>, s: Client<E>, chunks: seq<string>): Client<E> {
    if chunks == [] then s else Receive(c, ReceiveAll(c, s, chunks[..|chunks| - 1]), chunks[|chunks| - 1])
  }

  datatype Outcome = Completed | Failed(why: Failure) | Interrupted

  function Verdict<E>(s: Client<E>): Outcome {
    if s.failure.Some? then Failed(s.failure.value) else if s.terminal then Completed else Interrupted
  }

  /** The client after its first complete block. */
  function Next<E>(c: Codec<E>, s: Client<E>): Client<E>
    requires FirstBreak(s.buffer) < |s.buffer|
  {
    var at := FirstBreak(s.buffer);
    Consume(c, s.(buffer := s.buffer[at + 2..]), Payload(s.buffer[..at]))
  }

  lemma DrainNext<E>(c: Codec<E>, s: Client<E>)
    requires s.failure.None? && FirstBreak(s.buffer) < |s.buffer|
    ensures Drain(c, s) == Drain(c, Next(c, s)) && (Next(c, s).failure.Some? ==> Drain(c, s) == Next(c, s))
  {}

  /** The inner loop: consume complete blocks until none is left or one fails. */
  method DrainBlocks<E>(c: Codec<E>, before: Client<E>) returns (s: Client<E>)
    requires before.failure.None?
    ensures s == Drain(c, before)
  {
    s := before;
    var at := FirstBreak(s.buffer);
    while at < |s.buffer|
      invariant s.failure.None? && at == FirstBreak(s.buffer) && Drain(c, s) == Drain(c, before)
      decreases |s.buffer|
    {
      DrainNext(c, s);
      ghost var next := Next(c, s);
      var raw := Payload(s.buffer[..at]);
      s := s.(buffer := s.buffer[at + 2..]);
      if raw != "" {
        match c.decode(raw)
        case Typed(event) =>
          s := s.(emitted := s.emitted + [event], terminal := s.terminal || c.completes(event));
        case Untyped =>
          if !s.terminal { return s.(failure := Some(TurnFailed)); }
        case Malformed =>
          return s.(failure := Some(BadPayload));
      }
      assert s == next;
      at := FirstBreak(s.buffer);
    }
  }

  /** The reading loop: `chunks` is what successive reads deliver, in any sizes. */
  method StreamTurn<E>(c: Codec<E>, chunks: seq<string>) returns (emitted: seq<E>, outcome: Outcome)
    ensures var s := ReceiveAll(c, Start(), chunks); emitted == s.emitted && outcome == Verdict(s)
  {
    var s: Client<E> := Start();
    for k := 0 to |chunks|
      invariant s.failure.None? && s == ReceiveAll(c, Start(), chunks[..k])
    {
      assert chunks[..k + 1][..k] == chunks[..k];
      s := DrainBlocks(c, s.(buffer := s.buffer + chunks[k]));
      if s.failure.None? && |s.buffer| > LIMIT { s := s.(failure := Some(TooLarge)); }
      if s.failure.Some? {
        Fails(c, chunks, k, s);
        return s.emitted, Failed(s.failure.value);
      }
    }
    assert chunks[..|chunks|] == chunks;
    return s.emitted, if s.terminal then Completed else Interrupted;
  }

  /** Nothing more happens after a failure. */
  lemma {:induction false} Fails<E>(c: Codec<E>, chunks: seq<string>, k: nat, s: Client<E>)
    requires k < |chunks| && s.failure.Some? && ReceiveAll(c, Start(), chunks[..k + 1]) == s
    ensures ReceiveAll(c, Start(), chunks) == s
    decreases |chunks|
  {
    var n := |chunks| - 1;
    if k < n {
      assert chunks[..n][..k + 1] == chunks[..k + 1];
      Fails(c, chunks[..n], k, s);
    } else {
      assert chunks[..k + 1] == chunks;
    }
  }

  // ----- cutting text is independent of how it arrives -----

  lemma FirstBreakPrefix(s: string, t: string)
    requires FirstBreak(s) < |s|
    ensures FirstBreak(s + t) == FirstBreak(s)
  {
    var i := FirstBreak(s);
    forall j | 0 <= j < i ensures !BreakAt(s + t, j) { assert !BreakAt(s, j); }
    FirstBreakIs(s + t, i);
  }

  lemma Slices(s: string, t: string, at: nat)
    requires at + 2 <= |s|
    ensures (s + t)[at + 2..] == s[at + 2..] + t && (s + t)[..at] == s[..at]
  {}

  lemma ConsumeKeepsBuffer<E>(c: Codec<E>, s: Client<E>, a: string, b: string, raw: string)
    ensures Consume(c, s.(buffer := a), raw).buffer == a
    ensures Consume(c, s.(buffer := b), raw) == Consume(c, s.(buffer := a), raw).(buffer := b)
  {}

  /** Draining early and continuing is the same as draining everything at once. */
  lemma {:induction false} DrainAppend<E>(c: Codec<E>, s: Client<E>, t: string)
    ensures var early := Drain(c, s);
      early.failure.None? ==>
        Drain(c, s.(buffer := s.buffer + t)) == Drain(c, early.(buffer := early.buffer + t))
    decreases |s.buffer|
  {
    var at := FirstBreak(s.buffer);
    if s.failure.None? && at < |s.buffer| {
      FirstBreakPrefix(s.buffer, t);
      Slices(s.buffer, t, at);
      var next := Consume(c, s.(buffer := s.buffer[at + 2..]), Payload(s.buffer[..at]));
      DrainAppend(c, next, t);
      ConsumeKeepsBuffer(c, s, s.buffer[at + 2..], s.buffer[at + 2..] + t, Payload(s.buffer[..at]));
    }
  }

  function Concat(chunks: seq<string>): string {
    if chunks == [] then "" else Concat(chunks[..|chunks| - 1]) + chunks[|chunks| - 1]
  }

  /** However the text is cut into reads, an unfailed client is where one single read of the whole
      text would have taken it. */
  lemma {:induction false} ChunksAreInvisible<E>(c: Codec<E>, chunks: seq<string>)
    requires ReceiveAll(c, Start<E>(), chunks).failure.None?
    ensures ReceiveAll(c, Start<E>(), chunks) == Drain(c, Start<E>().(buffer := Concat(chunks)))
  {
    if chunks != [] {
      var n := |chunks| - 1;
      ChunksAreInvisible(c, chunks[..n]);
      DrainAppend(c, Start<E>().(buffer := Concat(chunks[..n])), chunks[n]);
    }
  }

  // ----- reading what was printed -----

  predicate NoBreak(s: string) { forall i | 0 <= i < |s| :: !BreakAt(s, i) }

  lemma {:induction false} FirstLineIs(s: string, n: nat)
    requires n <= |s| && '\n' !in s[..n] && (n < |s| ==> s[n] == '\n')
    ensures FirstLine(s) == n
  {
    if n > 0 {
      assert s[..n] == [s[0]] + s[1..][..n - 1];
      FirstLineIs(s[1..], n - 1);
    }
  }

  lemma OneLine(s: string)
    requires '\n' !in s
    ensures NoBreak(s) && Lines(s) == [s]
  {
    assert s[..|s|] == s;
    FirstLineIs(s, |s|);
  }

  lemma ConsLine(line: string, rest: string)
    requires '\n' !in line && line != "" && NoBreak(rest) && rest != "" && rest[0] != '\n'
    ensures NoBreak(line + NEWLINE + rest) && Lines(line + NEWLINE + rest) == [line] + Lines(rest)
  {
    var s := line + NEWLINE + rest;
    var n := |line|;
    forall i | 0 <= i < |s| ensures !BreakAt(s, i) {
      if i < n { assert s[i] == line[i] && line[i] in line; }
      else if i > n { assert BreakAt(s, i) == BreakAt(rest, i - n - 1); }
    }
    assert s[..n] == line && s[n + 1..] == rest;
    FirstLineIs(s, n);
  }

  lemma DataLineIsData(d: string)
    requires '\n' !in d && d != ""
    ensures var l := DataLine(d); IsData(l) && l[6..] == d && '\n' !in l && l[|l| - 1] != '\n' && l[0] == 'd'
  {
    assert d[|d| - 1] in d;
  }

  lemma LastOnly(a: string, d: string)
    requires a != "" && a[0] != 'd' && '\n' !in d && d != ""
    ensures DataLines([a] + [DataLine(d)]) == [d]
  {
    var single: seq<string> := [DataLine(d)];
    DataLineIsData(d);
    assert |single[1..]| == 0 && DataLines(single) == [d];
    assert ([a] + single)[1..] == single;
  }

  lemma MessageLine()
    ensures MESSAGE != "" && '\n' !in MESSAGE && MESSAGE[0] == 'e'
    ensures ERROR != "" && '\n' !in ERROR && ERROR[0] == 'e'
  {}

  /** A named line and a data line: only the data is kept. */
  lemma TwoLines(name: string, d: string)
    requires name != "" && '\n' !in name && name[0] == 'e' && '\n' !in d && d != ""
    ensures var s := name + NEWLINE + DataLine(d);
      && NoBreak(s) && Lines(s) == [name] + [DataLine(d)] && Payload(s) == d
      && s[0] == 'e' && s[|s| - 1] != '\n'
  {
    DataLineIsData(d);
    OneLine(DataLine(d));
    ConsLine(name, DataLine(d));
    LastOnly(name, d);
  }

  lemma BodyReads<E(!new)>(c: Codec<E>, e: E)
    requires Faithful(c)
    ensures NoBreak(Body(c, e)) && Payload(Body(c, e)) == c.encode(e)
    ensures Body(c, e) != "" && Body(c, e)[|Body(c, e)| - 1] != '\n'
  {
    var id, d := IdLine(c.sequence(e)), c.encode(e);
    MessageLine();
    TwoLines(MESSAGE, d);
    var rest := MESSAGE + NEWLINE + DataLine(d);
    assert id[0] == 'i';
    ConsLine(id, rest);
    LastOnly(MESSAGE, d);
    assert ([id] + Lines(rest))[1..] == Lines(rest);
  }

  /** A frame is three lines: the event's number, its kind and its encoding. */
  lemma FrameLines<E(!new)>(c: Codec<E>, e: E)
    requires Faithful(c)
    ensures Frame(c, e) == Body(c, e) + "\n\n"
    ensures Lines(Body(c, e)) == ["id: " + Digits(c.sequence(e)), "event: message", "data: " + c.encode(e)]
    ensures ValueOf(IdLine(c.sequence(e))[4..]) == c.sequence(e)
  {
    var id, d := IdLine(c.sequence(e)), c.encode(e);
    DigitsRead(c.sequence(e));
    assert id[4..] == Digits(c.sequence(e));
    MessageLine();
    TwoLines(MESSAGE, d);
    ConsLine(id, MESSAGE + NEWLINE + DataLine(d));
  }

  lemma ErrorReads()
    ensures NoBreak(ErrorBody()) && Payload(ErrorBody()) == FAILURE
    ensures ErrorBody() != "" && ErrorBody()[|ErrorBody()| - 1] != '\n'
  {
    MessageLine();
    TwoLines(ERROR, FAILURE);
  }

  lemma BreakAfterBody(body: string, rest: string)
    requires NoBreak(body) && body != "" && body[|body| - 1] != '\n'
    ensures FirstBreak(body + BREAK + rest) == |body|
  {
    var s := body + BREAK + rest;
    assert BreakAt(s, |body|);
    forall j | 0 <= j < |body| ensures !BreakAt(s, j) {
      assert s[j] == body[j];
      if j + 1 < |body| { assert s[j + 1] == body[j + 1] && !BreakAt(body, j); }
    }
    FirstBreakIs(s, |body|);
  }

  lemma FirstBreakIs(s: string, n: nat)
    requires BreakAt(s, n) && forall j | 0 <= j < n :: !BreakAt(s, j)
    ensures FirstBreak(s) == n
  {}

  /** One complete block at the head of the buffer is taken off and consumed. */
  lemma DrainBlock<E>(c: Codec<E>, s: Client<E>, body: string, rest: string)
    requires s.failure.None? && s.buffer == body + BREAK + rest
    requires NoBreak(body) && body != "" && body[|body| - 1] != '\n'
    ensures Drain(c, s) == Drain(c, Consume(c, s.(buffer := rest), Payload(body)))
  {
    BreakAfterBody(body, rest);
    assert s.buffer[|body| + 2..] == rest && s.buffer[..|body|] == body;
  }

  function AnyCompletes<E>(c: Codec<E>, es: seq<E>): bool { exists i :: 0 <= i < |es| && c.completes(es[i]) }

  lemma Regroup(a: string, b: string, c: string)
    ensures a + b + c == a + (b + c)
  {}

  lemma DrainFrame<E(!new)>(c: Codec<E>, s: Client<E>, e: E, more: string)
    requires Faithful(c) && s.failure.None? && s.buffer == Frame(c, e) + more
    ensures Drain(c, s) == Drain(c, Client(more, s.emitted + [e], s.terminal || c.completes(e), None))
  {
    BodyReads(c, e);
    DrainBlock(c, s, Body(c, e), more);
  }

  lemma DrainFirst<E(!new)>(c: Codec<E>, s: Client<E>, es: seq<E>, rest: string) returns (t: Client<E>)
    requires Faithful(c) && s.failure.None? && es != [] && s.buffer == Printed(c, es) + rest
    ensures t == Client(Printed(c, es[1..]) + rest, s.emitted + [es[0]], s.terminal || c.completes(es[0]), None)
    ensures Drain(c, s) == Drain(c, t)
  {
    var more := Printed(c, es[1..]) + rest;
    Regroup(Frame(c, es[0]), Printed(c, es[1..]), rest);
    DrainFrame(c, s, es[0], more);
    t := Client(more, s.emitted + [es[0]], s.terminal || c.completes(es[0]), None);
  }

  lemma CompletesCons<E>(c: Codec<E>, e: E, es: seq<E>)
    requires es != [] && es[0] == e
    ensures AnyCompletes(c, es) == (c.completes(e) || AnyCompletes(c, es[1..]))
  {
    if i :| 0 < i < |es| && c.completes(es[i]) { assert es[1..][i - 1] == es[i]; }
    if j :| 0 <= j < |es| - 1 && c.completes(es[1..][j]) { assert es[j + 1] == es[1..][j]; }
  }

  /** The client once `es` have been consumed and `rest` is left. */
  function After<E>(c: Codec<E>, s: Client<E>, es: seq<E>, rest: string): Client<E> {
    Client(rest, s.emitted + es, s.terminal || AnyCompletes(c, es), None)
  }

  lemma AfterCons<E>(c: Codec<E>, s: Client<E>, t: Client<E>, es: seq<E>, rest: string)
    requires es != [] && t.emitted == s.emitted + [es[0]] && t.terminal == (s.terminal || c.completes(es[0]))
    ensures After(c, t, es[1..], rest) == After(c, s, es, rest)
  {
    assert t.emitted + es[1..] == s.emitted + es;
    CompletesCons(c, es[0], es);
  }

  lemma AfterNone<E>(c: Codec<E>, s: Client<E>, rest: string)
    requires s.failure.None? && s.buffer == rest
    ensures After(c, s, [], rest) == s
  {
    assert s.emitted + [] == s.emitted;
  }

  lemma {:induction false} DrainPrinted<E(!new)>(c: Codec<E>, s: Client<E>, es: seq<E>, rest: string)
    requires Faithful(c) && s.failure.None? && s.buffer == Printed(c, es) + rest
    ensures Drain(c, s) == Drain(c, After(c, s, es, rest))
    decreases es
  {
    if es == [] {
      assert "" + rest == rest;
      AfterNone(c, s, rest);
    } else {
      var t := DrainFirst(c, s, es, rest);
      DrainPrinted(c, t, es[1..], rest);
      AfterCons(c, s, t, es, rest);
    }
  }

  // ----- what reaches the reader -----

  /** A text that stops somewhere inside a printed stream. */
  predicate Cut<E>(c: Codec<E>, es: seq<E>, k: nat, rest: string) {
    && k <= |es|
    && (k < |es| ==> rest <= Frame(c, es[k]) && rest != Frame(c, es[k]))
    && (k == |es| ==> rest == "")
  }

  lemma ShortNoBreak(body: string, rest: string)
    requires NoBreak(body) && body != "" && body[|body| - 1] != '\n'
    requires rest <= body + BREAK && rest != body + BREAK
    ensures NoBreak(rest)
  {
    forall i | 0 <= i < |rest| ensures !BreakAt(rest, i) {
      var whole := body + BREAK;
      if i + 1 < |rest| {
        assert rest[i] == whole[i] && rest[i + 1] == whole[i + 1];
        if i + 1 < |body| { assert !BreakAt(body, i); }
      }
    }
  }

  /** Reading a cut stream in one go emits exactly the events whose frames are complete. */
  lemma DrainCut<E(!new)>(c: Codec<E>, es: seq<E>, k: nat, rest: string)
    requires Faithful(c) && Cut(c, es, k, rest)
    ensures Drain(c, Start<E>().(buffer := Printed(c, es[..k]) + rest))
      == Client(rest, es[..k], AnyCompletes(c, es[..k]), None)
    ensures k < |es| ==> |rest| < |Frame(c, es[k])|
  {
    DrainPrinted(c, Start<E>().(buffer := Printed(c, es[..k]) + rest), es[..k], rest);
    if k < |es| {
      BodyReads(c, es[k]);
      ShortNoBreak(Body(c, es[k]), rest);
    }
    assert [] + es[..k] == es[..k];
    assert NoBreak(rest) && FirstBreak(rest) == |rest|;
  }

  lemma PrintedCons<E>(c: Codec<E>, es: seq<E>, k: nat)
    requires 0 < k <= |es|
    ensures Printed(c, es[..k]) == Frame(c, es[0]) + Printed(c, es[1..][..k - 1])
  {
    assert es[..k][1..] == es[1..][..k - 1];
  }

  lemma {:induction false} FindCut<E>(c: Codec<E>, es: seq<E>, text: string) returns (k: nat, rest: string)
    requires text <= Printed(c, es)
    ensures Cut(c, es, k, rest) && text == Printed(c, es[..k]) + rest
  {
    if es == [] {
      k, rest := 0, "";
    } else {
      var f := Frame(c, es[0]);
      assert Printed(c, es) == f + Printed(c, es[1..]);
      if |text| < |f| {
        k, rest := 0, text;
        assert text == (f + Printed(c, es[1..]))[..|text|] == f[..|text|];
      } else {
        assert text == f + text[|f|..];
        var j, r := FindCut(c, es[1..], text[|f|..]);
        k, rest := j + 1, r;
        PrintedCons(c, es, k);
        Regroup(f, Printed(c, es[1..][..j]), r);
      }
    }
  }

  ghost predicate Small<E(!new)>(c: Codec<E>, es: seq<E>) { forall e | e in es :: |Frame(c, e)| <= LIMIT + 1 }

  /** However a printed stream is cut into reads, and wherever it stops: the client has emitted
      exactly the events whose frames arrived completely, in order, and has not failed. */
  lemma {:induction false} EmitsWhatArrived<E(!new)>(c: Codec<E>, es: seq<E>, chunks: seq<string>)
    returns (k: nat, rest: string)
    requires Faithful(c) && Small(c, es) && Concat(chunks) <= Printed(c, es)
    ensures Cut(c, es, k, rest) && Concat(chunks) == Printed(c, es[..k]) + rest
    ensures ReceiveAll(c, Start<E>(), chunks) == Client(rest, es[..k], AnyCompletes(c, es[..k]), None)
  {
    if chunks == [] {
      k, rest := 0, "";
      assert es[..0] == [];
    } else {
      k, rest := FindCut(c, es, Concat(chunks));
      var n := |chunks| - 1;
      assert Concat(chunks[..n]) <= Printed(c, es);
      var j, r := EmitsWhatArrived(c, es, chunks[..n]);
      DrainAppend(c, Start<E>().(buffer := Concat(chunks[..n])), chunks[n]);
      ChunksAreInvisible(c, chunks[..n]);
      DrainCut(c, es, k, rest);
      if k < |es| { assert es[k] in es; }
    }
  }

  /** The whole stream: every event is emitted, in order, and the turn counts as completed exactly
      when one of its events completes it. */
  lemma RoundTrip<E(!new)>(c: Codec<E>, es: seq<E>, chunks: seq<string>)
    requires Faithful(c) && Small(c, es) && Concat(chunks) == Printed(c, es)
    ensures var s := ReceiveAll(c, Start<E>(), chunks);
      s.emitted == es && Verdict(s) == if AnyCompletes(c, es) then Completed else Interrupted
  {
    var k, rest := EmitsWhatArrived(c, es, chunks);
    WholeCut(c, es, k, rest);
    assert es[..k] == es;
  }

  lemma {:induction false} WholeCut<E(!new)>(c: Codec<E>, es: seq<E>, k: nat, rest: string)
    requires Cut(c, es, k, rest) && Printed(c, es[..k]) + rest == Printed(c, es)
    ensures k == |es|
    decreases k
  {
    if k > 0 {
      var f := Frame(c, es[0]);
      PrintedCons(c, es, k);
      Regroup(f, Printed(c, es[1..][..k - 1]), rest);
      SameTail(f, Printed(c, es[1..][..k - 1]) + rest, Printed(c, es[1..]));
      WholeCut(c, es[1..], k - 1, rest);
    } else if es != [] {
      FrameFits(c, es);
    }
  }

  lemma SameTail(f: string, a: string, b: string)
    requires f + a == f + b
    ensures a == b
  {
    assert (f + a)[|f|..] == a && (f + b)[|f|..] == b;
  }

  lemma FrameFits<E>(c: Codec<E>, es: seq<E>)
    requires es != []
    ensures |Printed(c, es)| >= |Frame(c, es[0])|
  {}

  /** The size bound above is exact: if some frame is larger, the same text, cut in the middle of
      that frame, makes the client fail. */
  lemma LargeFrameFails<E(!new)>(c: Codec<E>, es: seq<E>, k: nat) returns (chunks: seq<string>)
    requires Faithful(c) && k < |es| && |Frame(c, es[k])| > LIMIT + 1
    ensures Concat(chunks) == Printed(c, es)
    ensures ReceiveAll(c, Start<E>(), chunks).failure == Some(TooLarge)
  {
    var rest := Frame(c, es[k])[..LIMIT + 1];
    var head := Printed(c, es[..k]) + rest;
    PrintedSplit(c, es, k);
    HeadOf(Printed(c, es[..k]), Frame(c, es[k]), Printed(c, es), LIMIT + 1);
    chunks := [head, Printed(c, es)[|head|..]];
    HeadFails(c, es, k, rest);
    FailedFirst(c, head, Printed(c, es)[|head|..]);
  }

  lemma HeadFails<E(!new)>(c: Codec<E>, es: seq<E>, k: nat, rest: string)
    requires Faithful(c) && k < |es| && |Frame(c, es[k])| > LIMIT + 1 && rest == Frame(c, es[k])[..LIMIT + 1]
    ensures Receive(c, Start<E>(), Printed(c, es[..k]) + rest).failure == Some(TooLarge)
  {
    DrainCut(c, es, k, rest);
    ReceiveFirst(c, Printed(c, es[..k]) + rest);
  }

  lemma HeadOf(before: string, frame: string, whole: string, n: nat)
    requires before + frame <= whole && n <= |frame|
    ensures before + frame[..n] <= whole
  {
    assert before + frame == before + frame[..n] + frame[n..];
  }

  /** A failed client ignores what comes after. */
  lemma FailedFirst<E>(c: Codec<E>, a: string, b: string)
    requires Receive(c, Start<E>(), a).failure.Some?
    ensures Concat([a, b]) == a + b
    ensures ReceiveAll(c, Start<E>(), [a, b]) == Receive(c, Start<E>(), a)
  {
    assert [a, b][..1] == [a] && [a][..0] == [];
    assert "" + a == a;
    assert Concat([a]) == a;
    assert ReceiveAll(c, Start<E>(), [a]) == Receive(c, Start<E>(), a);
  }

  lemma {:induction false} PrintedSplit<E>(c: Codec<E>, es: seq<E>, k: nat)
    requires k < |es|
    ensures Printed(c, es[..k]) + Frame(c, es[k]) <= Printed(c, es)
  {
    if k > 0 {
      PrintedSplit(c, es[1..], k - 1);
      PrintedCons(c, es, k);
      Regroup(Frame(c, es[0]), Printed(c, es[1..][..k - 1]), Frame(c, es[k]));
      LongerPrefix(Frame(c, es[0]), Printed(c, es[1..][..k - 1]) + Frame(c, es[k]), Printed(c, es[1..]));
    } else {
      assert es[..0] == [];
      assert "" + Frame(c, es[0]) == Frame(c, es[0]);
    }
  }

  lemma LongerPrefix(a: string, b: string, c: string)
    requires b <= c
    ensures a + b <= a + c
  {}

  /** The server's error frame ends an uncompleted turn with a failure and is ignored after a
      completed one; the events before it are emitted either way. */
  lemma ErrorAfter<E(!new)>(c: Codec<E>, es: seq<E>)
    requires Faithful(c)
    ensures var s := Receive(c, Start<E>(), Printed(c, es) + ErrorFrame());
      s.emitted == es && Verdict(s) == if AnyCompletes(c, es) then Completed else Failed(TurnFailed)
  {
    ReceiveFirst(c, Printed(c, es) + ErrorFrame());
    DrainErrorAfter(c, es, ErrorFrame());
  }

  lemma ReceiveFirst<E>(c: Codec<E>, text: string)
    ensures Receive(c, Start<E>(), text) == Guard(Drain(c, Start<E>().(buffer := text)))
  {
    assert "" + text == text;
  }

  lemma DrainErrorAfter<E(!new)>(c: Codec<E>, es: seq<E>, tail: string)
    requires Faithful(c) && tail == ErrorFrame()
    ensures var any := AnyCompletes(c, es);
      Drain(c, Start<E>().(buffer := Printed(c, es) + tail))
      == Client("", es, any, if any then None else Some(TurnFailed))
  {
    DrainPrinted(c, Start<E>().(buffer := Printed(c, es) + tail), es, tail);
    assert [] + es == es;
    DrainError(c, Client(tail, es, AnyCompletes(c, es), None));
  }

  /** A block that does not parse fails the client, whatever came before; the events before it are
      emitted, and nothing after it is. */
  lemma BadBlockFails<E(!new)>(c: Codec<E>, es: seq<E>, body: string, rest: string)
    requires Faithful(c) && NoBreak(body) && body != "" && body[|body| - 1] != '\n'
    requires Payload(body) != "" && c.decode(Payload(body)) == Malformed
    ensures var s := Receive(c, Start<E>(), Printed(c, es) + (body + BREAK + rest));
      s.emitted == es && s.failure == Some(BadPayload)
  {
    var tail := body + BREAK + rest;
    ReceiveFirst(c, Printed(c, es) + tail);
    DrainPrinted(c, Start<E>().(buffer := Printed(c, es) + tail), es, tail);
    assert [] + es == es;
    DrainBad(c, Client(tail, es, AnyCompletes(c, es), None), body, rest);
  }

  /** A block without data is passed over. */
  lemma EmptyBlockIgnored<E>(c: Codec<E>, s: Client<E>, body: string, rest: string)
    requires s.failure.None? && s.buffer == body + BREAK + rest && Payload(body) == ""
    requires NoBreak(body) && body != "" && body[|body| - 1] != '\n'
    ensures Drain(c, s) == Drain(c, s.(buffer := rest))
  {
    DrainBlock(c, s, body, rest);
  }

  lemma DrainBad<E>(c: Codec<E>, s: Client<E>, body: string, rest: string)
    requires s.failure.None? && s.buffer == body + BREAK + rest
    requires NoBreak(body) && body != "" && body[|body| - 1] != '\n'
    requires Payload(body) != "" && c.decode(Payload(body)) == Malformed
    ensures Drain(c, s) == s.(buffer := rest, failure := Some(BadPayload))
  {
    DrainBlock(c, s, body, rest);
  }

  lemma DrainEmpty<E>(c: Codec<E>, s: Client<E>)
    requires s.buffer == ""
    ensures Drain(c, s) == s
  {}

  lemma DrainError<E(!new)>(c: Codec<E>, s: Client<E>)
    requires Faithful(c) && s.failure.None? && s.buffer == ErrorFrame()
    ensures Drain(c, s) == s.(buffer := "", failure := if s.terminal then None else Some(TurnFailed))
  {
    ErrorReads();
    DrainUntyped(c, s, ErrorBody());
  }

  lemma DrainUntyped<E>(c: Codec<E>, s: Client<E>, body: string)
    requires s.failure.None? && s.buffer == body + BREAK && NoBreak(body) && body != "" && body[|body| - 1] != '\n'
    requires Payload(body) != "" && c.decode(Payload(body)) == Untyped
    ensures Drain(c, s) == s.(buffer := "", failure := if s.terminal then None else Some(TurnFailed))
  {
    assert body + BREAK == body + BREAK + "";
    DrainBlock(c, s, body, "");
    DrainEmpty(c, Consume(c, s.(buffer := ""), Payload(body)));
  }
}
