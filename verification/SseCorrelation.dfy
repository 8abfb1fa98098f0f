/** Correlating responses that arrive on an MCP event stream with HTTP requests that
    may be retried: several channels over time can wait under the same request id. */
module SseCorrelation {
  import opened Prelude
  import opened Decimal

  /** Channels are numbered in the order Register makes them. */
  type Channel = nat

  // ----- the stream's fields under its mutex

  datatype Table = Table(closed: bool, pending: map<string, Channel>)

  function Registered(t: Table, id: string, ch: Channel): Table { t.(pending := t.pending[id := ch]) }

  function Without(t: Table, id: string): Table { t.(pending := t.pending - {id}) }

  const SHUT := Table(true, map[])

  class ResponseStream {
    var closed: bool
    var pending: map<string, Channel>

    constructor ()
      ensures State() == Table(false, map[])
    {
      closed, pending := false, map[];
    }

    function State(): Table
      reads this
    {
      Table(closed, pending)
    }

    method Register(id: string, ch: Channel) returns (ok: bool)
      modifies this
      ensures ok == !old(closed)
      ensures State() == if old(closed) then old(State()) else Registered(old(State()), id, ch)
    {
      if closed {
        return false;
      }
      pending := pending[id := ch];
      ok := true;
    }

    method Cleanup(id: string)
      modifies this
      ensures State() == Without(old(State()), id)
    {
      pending := pending - {id};
    }

    method Claim(id: string) returns (ch: Option<Channel>)
      modifies this
      ensures ch == (if id in old(pending) then Some(old(pending)[id]) else None)
      ensures State() == Without(old(State()), id)
    {
      ch := if id in pending then Some(pending[id]) else None;
      pending := pending - {id};
    }

    /** failPending: only the first caller takes the waiting channels. */
    method TakeAll() returns (taken: map<string, Channel>)
      modifies this
      ensures taken == if old(closed) then map[] else old(pending)
      ensures State() == if old(closed) then old(State()) else SHUT
    {
      if closed {
        return map[];
      }
      closed, taken := true, pending;
      pending := map[];
    }
  }

  // ----- requests, reader and Close together

  datatype Message = Response(id: string, payload: string) | Failed(reason: string)

  /** An attempt registers, posts, perhaps waits on the stream, and cleans up; `answer` is
      what it received from the stream. */
  datatype Pc =
    | Ready
    | Posting(ch: Channel)
    | Waiting(ch: Channel)
    | Leaving(ch: Channel, retry: bool, answer: Option<Message>)
    | Ended(answer: Option<Message>)

  datatype Request = Request(toolsCall: bool, attempts: nat, pc: Pc)

  function MaxAttempts(toolsCall: bool): nat { if toolsCall then 1 else 3 }

  /** What a goroutine outside the mutex still has to send. */
  datatype Hand = Idle | Delivering(ch: Channel, message: Message) | FailingAll(todo: set<Channel>) | Stopped

  datatype System = System(
    table: Table, requests: seq<Request>, owners: seq<nat>, boxes: seq<seq<Message>>,
    reader: Hand, closer: Hand, shutdowns: nat)

  const INITIAL := System(Table(false, map[]), [], [], [], Idle, Idle, 0)

  function Key(r: nat): string { Render(r + 1) }

  datatype PostResult = Accepted | Transient | Final

  datatype RequestAct = Attempt | PostEnds(result: PostResult) | Receive | ContextEnds | Clean

  datatype ReaderAct = ReadResponse(id: string, payload: string) | StreamEnds | ReaderSends(ch: Channel)

  datatype CloserAct = CloseStream | CloserSends(ch: Channel)

  datatype Step = Arrive(toolsCall: bool) | ByRequest(r: nat, q: RequestAct) | ByReader(a: ReaderAct) | ByCloser(c: CloserAct)

  function Current(pc: Pc): Option<Channel> {
    match pc
    case Posting(ch) => Some(ch)
    case Waiting(ch) => Some(ch)
    case Leaving(ch, _, _) => Some(ch)
    case _ => None
  }

  function Moved(s: System, r: nat, pc: Pc): System
    requires r < |s.requests|
  {
    s.(requests := s.requests[r := s.requests[r].(pc := pc)])
  }

  function NextRequest(s: System, r: nat, act: RequestAct): System {
    if r >= |s.requests| then s else
    var q := s.requests[r];
    match act
    case Attempt =>
      if !q.pc.Ready? then s
      else if s.table.closed then Moved(s, r, Ended(None))
      else
        var ch := |s.boxes|;
        s.(table := Registered(s.table, Key(r), ch), owners := s.owners + [r], boxes := s.boxes + [[]],
           requests := s.requests[r := q.(attempts := q.attempts + 1, pc := Posting(ch))])
    case PostEnds(result) =>
      if !q.pc.Posting? then s
      else Moved(s, r, if result.Accepted? then Waiting(q.pc.ch) else Leaving(q.pc.ch, result.Transient?, None))
    case Receive =>
      if q.pc.Waiting? && q.pc.ch < |s.boxes| && s.boxes[q.pc.ch] != [] then
        Moved(s, r, Leaving(q.pc.ch, false, Some(s.boxes[q.pc.ch][0])))
      else s
    case ContextEnds =>
      if q.pc.Waiting? then Moved(s, r, Leaving(q.pc.ch, false, None))
      else if q.pc.Ready? then Moved(s, r, Ended(None))
      else s
    case Clean =>
      if !q.pc.Leaving? then s
      else Moved(s, r, if q.pc.retry && q.attempts < MaxAttempts(q.toolsCall) then Ready else Ended(q.pc.answer))
             .(table := Without(s.table, Key(r)))
  }

  function Range(m: map<string, Channel>): set<Channel> { set id | id in m :: m[id] }

  function Sent(s: System, ch: Channel, m: Message): System
    requires ch < |s.boxes|
  {
    s.(boxes := s.boxes[ch := s.boxes[ch] + [m]])
  }

  function Taken(t: Table): set<Channel> { if t.closed then {} else Range(t.pending) }

  function Shutdown(s: System): System {
    if s.table.closed then s else s.(table := SHUT, shutdowns := s.shutdowns + 1)
  }

  function NextReader(s: System, act: ReaderAct): System {
    match act
    case ReadResponse(id, payload) =>
      if !s.reader.Idle? || id == "" then s else
      s.(table := Without(s.table, id),
         reader := if id in s.table.pending then Delivering(s.table.pending[id], Response(id, payload)) else Idle)
    case StreamEnds => if s.reader.Idle? then Shutdown(s).(reader := FailingAll(Taken(s.table))) else s
    case ReaderSends(ch) =>
      if ch >= |s.boxes| then s
      else if s.reader.Delivering? && s.reader.ch == ch then Sent(s, ch, s.reader.message).(reader := Idle)
      else if s.reader.FailingAll? && ch in s.reader.todo then
        Sent(s, ch, Failed("stream closed")).(reader := FailingAll(s.reader.todo - {ch}))
      else s
  }

  function NextCloser(s: System, act: CloserAct): System {
    match act
    case CloseStream => if s.closer.Idle? then Shutdown(s).(closer := FailingAll(Taken(s.table))) else s
    case CloserSends(ch) =>
      if ch < |s.boxes| && s.closer.FailingAll? && ch in s.closer.todo then
        Sent(s, ch, Failed("stream is closed")).(closer := FailingAll(s.closer.todo - {ch}))
      else s
  }

  function Next(s: System, step: Step): System {
    match step
    case Arrive(toolsCall) => s.(requests := s.requests + [Request(toolsCall, 0, Ready)])
    case ByRequest(r, act) => NextRequest(s, r, act)
    case ByReader(act) => NextReader(s, act)
    case ByCloser(act) => NextCloser(s, act)
  }

  function After(steps: seq<Step>, n: nat): System
    requires n <= |steps|
  {
    if n == 0 then INITIAL else Next(After(steps, n - 1), steps[n - 1])
  }

  // ----- invariants

  predicate InHand(h: Hand, ch: Channel) {
    (h.Delivering? && h.ch == ch) || (h.FailingAll? && ch in h.todo)
  }

  predicate Pends(s: System, ch: Channel)
    requires ch < |s.owners|
  {
    Key(s.owners[ch]) in s.table.pending && s.table.pending[Key(s.owners[ch])] == ch
  }

  /** The ways channel ch may still be, or has been, answered. */
  function Duties(s: System, ch: Channel): nat
    requires ch < |s.boxes| == |s.owners|
  {
    (if Pends(s, ch) then 1 else 0) + (if InHand(s.reader, ch) then 1 else 0)
    + (if InHand(s.closer, ch) then 1 else 0) + |s.boxes[ch]|
  }

  ghost predicate HandFits(s: System, h: Hand) {
    && (h.FailingAll? ==> forall ch :: ch in h.todo ==> ch < |s.boxes|)
    && (h.Delivering? ==>
        && h.ch < |s.boxes| == |s.owners|
        && h.message.Response? && h.message.id == Key(s.owners[h.ch]))
  }

  /** A pending entry is the current attempt's channel of the request it is keyed by. */
  ghost predicate EntriesAreCurrent(s: System) {
    && |s.boxes| == |s.owners|
    && (forall ch :: 0 <= ch < |s.owners| ==> s.owners[ch] < |s.requests|)
    && (forall id :: id in s.table.pending ==>
        && s.table.pending[id] < |s.owners|
        && id == Key(s.owners[s.table.pending[id]])
        && Current(s.requests[s.owners[s.table.pending[id]]].pc) == Some(s.table.pending[id]))
    && (forall r :: 0 <= r < |s.requests| && Current(s.requests[r].pc).Some? ==>
        && Current(s.requests[r].pc).value < |s.owners|
        && s.owners[Current(s.requests[r].pc).value] == r)
  }

  ghost predicate DutiesFit(s: System) {
    && |s.boxes| == |s.owners|
    && (forall ch: Channel :: ch < |s.boxes| ==> Duties(s, ch) <= 1)
    && (forall r :: 0 <= r < |s.requests| && Current(s.requests[r].pc).Some? ==>
        Current(s.requests[r].pc).value < |s.boxes| && Duties(s, Current(s.requests[r].pc).value) == 1)
  }

  ghost predicate AnswersMatch(s: System) {
    && |s.boxes| == |s.owners|
    && forall ch: Channel, i: nat :: ch < |s.boxes| && i < |s.boxes[ch]| && s.boxes[ch][i].Response? ==>
         s.boxes[ch][i].id == Key(s.owners[ch])
  }

  ghost predicate Bounded(s: System) {
    && s.shutdowns == (if s.table.closed then 1 else 0)
    && (s.table.closed ==> s.table.pending == map[])
    && (forall r :: 0 <= r < |s.requests| ==> s.requests[r].attempts <= MaxAttempts(s.requests[r].toolsCall))
    && (forall r :: 0 <= r < |s.requests| ==> multiset(s.owners)[r] == s.requests[r].attempts)
    && (forall r :: 0 <= r < |s.requests| && s.requests[r].pc.Ready? ==>
        s.requests[r].attempts < MaxAttempts(s.requests[r].toolsCall))
  }

  ghost predicate Inv(s: System) {
    EntriesAreCurrent(s) && DutiesFit(s) && AnswersMatch(s) && Bounded(s) && HandFits(s, s.reader) && HandFits(s, s.closer)
  }

  lemma KeysDiffer(q: nat, r: nat)
    requires Key(q) == Key(r)
    ensures q == r
  {
    RenderIsInjective(q + 1, r + 1);
  }

  lemma EmptyStaysEmpty(t: Table, id: string)
    requires t.pending == map[]
    ensures Without(t, id).pending == map[]
  {
  }

  /** Only the current attempt of a request can have an entry under its id. */
  lemma EntryOfRequest(s: System, r: nat)
    requires EntriesAreCurrent(s) && Key(r) in s.table.pending
    ensures r < |s.requests| && Current(s.requests[r].pc) == Some(s.table.pending[Key(r)])
    ensures s.table.pending[Key(r)] < |s.owners| && s.owners[s.table.pending[Key(r)]] == r
  {
    KeysDiffer(r, s.owners[s.table.pending[Key(r)]]);
  }

  lemma ReadyHasNoEntry(s: System, r: nat)
    requires EntriesAreCurrent(s) && r < |s.requests| && Current(s.requests[r].pc).None?
    ensures Key(r) !in s.table.pending
  {
    if Key(r) in s.table.pending {
      EntryOfRequest(s, r);
    }
  }

  lemma AttemptKeepsDuties(s: System, r: nat)
    requires Inv(s) && r < |s.requests| && s.requests[r].pc.Ready? && !s.table.closed
    ensures DutiesFit(NextRequest(s, r, Attempt))
  {
    hide Key;
    var t, ch := NextRequest(s, r, Attempt), |s.boxes|;
    ReadyHasNoEntry(s, r);
    assert t.owners[ch] == r && t.boxes[ch] == [];
    forall c: Channel | c < |t.boxes| ensures Duties(t, c) == if c < ch then Duties(s, c) else 1 {
      if c < ch {
        assert t.owners[c] == s.owners[c] && t.boxes[c] == s.boxes[c];
      }
    }
  }

  lemma AttemptKeepsEntries(s: System, r: nat)
    requires Inv(s) && r < |s.requests| && s.requests[r].pc.Ready? && !s.table.closed
    ensures EntriesAreCurrent(NextRequest(s, r, Attempt))
  {
    hide Key, DutiesFit, AnswersMatch, HandFits, Bounded;
    ReadyHasNoEntry(s, r);
  }

  lemma AttemptKeepsRest(s: System, r: nat)
    requires Inv(s) && r < |s.requests| && s.requests[r].pc.Ready? && !s.table.closed
    ensures var t := NextRequest(s, r, Attempt); Bounded(t) && AnswersMatch(t) && HandFits(t, t.reader) && HandFits(t, t.closer)
  {
    hide Key, DutiesFit, Current;
  }

  lemma AttemptKeepsInv(s: System, r: nat)
    requires Inv(s)
    ensures Inv(NextRequest(s, r, Attempt))
  {
    hide Key, DutiesFit, EntriesAreCurrent, AnswersMatch, HandFits, Bounded;
    if r < |s.requests| && s.requests[r].pc.Ready? {
      if s.table.closed {
        MoveKeepsInv(s, r, Ended(None));
      } else {
        AttemptKeepsEntries(s, r);
        AttemptKeepsDuties(s, r);
        AttemptKeepsRest(s, r);
      }
    }
  }

  /** Moving on without changing the channel touches no other part. */
  lemma MoveKeepsInv(s: System, r: nat, pc: Pc)
    requires Inv(s) && r < |s.requests| && Current(pc) == Current(s.requests[r].pc) && !pc.Ready?
    ensures Inv(Moved(s, r, pc))
  {
    hide Key, DutiesFit, Duties;
    SamePcDuties(s, Moved(s, r, pc), r);
    var t := Moved(s, r, pc);
    assert forall q :: 0 <= q < |s.requests| ==> Current(t.requests[q].pc) == Current(s.requests[q].pc);
  }

  /** Acts that change only where a request stands keep its channel or drop it. */
  lemma SamePcDuties(s: System, t: System, r: nat)
    requires DutiesFit(s) && r < |s.requests|
    requires |t.requests| == |s.requests| && t == Moved(s, r, t.requests[r].pc)
    requires Current(t.requests[r].pc).None? || Current(t.requests[r].pc) == Current(s.requests[r].pc)
    ensures DutiesFit(t)
  {
    forall c: Channel | c < |t.boxes| ensures Duties(t, c) == Duties(s, c) {}
  }

  lemma CleanKeepsDuties(s: System, r: nat)
    requires Inv(s) && r < |s.requests| && s.requests[r].pc.Leaving?
    ensures DutiesFit(NextRequest(s, r, Clean))
  {
    hide Key;
    var t := NextRequest(s, r, Clean);
    forall c: Channel | c < |t.boxes| ensures Duties(t, c) <= Duties(s, c) && (s.owners[c] != r ==> Duties(t, c) == Duties(s, c)) {
      if s.owners[c] != r && Key(s.owners[c]) == Key(r) {
        KeysDiffer(s.owners[c], r);
      }
    }
  }

  lemma CleanKeepsInv(s: System, r: nat)
    requires Inv(s) && r < |s.requests| && s.requests[r].pc.Leaving?
    ensures Inv(NextRequest(s, r, Clean))
  {
    hide Key, DutiesFit, Duties;
    var t := NextRequest(s, r, Clean);
    CleanKeepsDuties(s, r);
    if s.table.closed {
      EmptyStaysEmpty(s.table, Key(r));
    }
    forall id | id in t.table.pending
      ensures s.owners[t.table.pending[id]] != r
    {
      assert id in s.table.pending && id == Key(s.owners[s.table.pending[id]]);
    }
  }

  lemma RequestKeepsInv(s: System, r: nat, act: RequestAct)
    requires Inv(s)
    ensures Inv(NextRequest(s, r, act))
  {
    hide Inv, Key;
    var t := NextRequest(s, r, act);
    if r < |s.requests| {
      match act
      case Attempt => AttemptKeepsInv(s, r);
      case Clean =>
        if s.requests[r].pc.Leaving? {
          CleanKeepsInv(s, r);
        }
      case _ =>
        if t != s {
          MoveKeepsInv(s, r, t.requests[r].pc);
        }
    }
  }

  lemma RangeOfPending(s: System, ch: Channel)
    requires EntriesAreCurrent(s)
    ensures ch in Range(s.table.pending) <==> ch < |s.owners| && Pends(s, ch)
  {
  }

  lemma ReaderKeepsDuties(s: System, act: ReaderAct)
    requires Inv(s)
    ensures DutiesFit(NextReader(s, act))
  {
    hide Key, AnswersMatch, Bounded;
    var t := NextReader(s, act);
    match act
    case ReadResponse(id, payload) =>
      ReadKeepsDuties(s, id, payload);
    case StreamEnds =>
      forall c: Channel | c < |t.boxes| ensures Duties(t, c) == Duties(s, c) {
        RangeOfPending(s, c);
      }
    case ReaderSends(ch) =>
      forall c: Channel | c < |t.boxes| ensures Duties(t, c) == Duties(s, c) {}
  }

  lemma ReadKeepsDuties(s: System, id: string, payload: string)
    requires Inv(s)
    ensures DutiesFit(NextReader(s, ReadResponse(id, payload)))
  {
    hide Key, AnswersMatch, Bounded;
    var t := NextReader(s, ReadResponse(id, payload));
    if id in s.table.pending {
      assert id == Key(s.owners[s.table.pending[id]]);
    }
    forall c: Channel | c < |t.boxes| ensures Duties(t, c) == Duties(s, c) {}
  }

  lemma ReaderKeepsInv(s: System, act: ReaderAct)
    requires Inv(s)
    ensures Inv(NextReader(s, act))
  {
    hide Key, DutiesFit, EntriesAreCurrent, AnswersMatch, HandFits, Bounded;
    ReaderKeepsDuties(s, act);
    ReaderKeepsEntries(s, act);
    ReaderKeepsAnswers(s, act);
    ReaderKeepsHands(s, act);
  }

  lemma ReaderKeepsEntries(s: System, act: ReaderAct)
    requires Inv(s)
    ensures EntriesAreCurrent(NextReader(s, act)) && Bounded(NextReader(s, act))
  {
    hide Key, DutiesFit, AnswersMatch, HandFits, EntriesAreCurrent, Bounded;
    var t := NextReader(s, act);
    match act
    case ReadResponse(id, _) =>
      if t != s {
        FewerEntries(s, t, Without(s.table, id));
        if s.table.closed {
          ClosedIsEmpty(s);
          EmptyStaysEmpty(s.table, id);
        }
        SameBounds(s, t);
      }
    case StreamEnds =>
      FewerEntries(s, t, if s.reader.Idle? && !s.table.closed then SHUT else s.table);
      ShutdownKeepsBounds(s, t);
    case ReaderSends(_) =>
      FewerEntries(s, t, s.table);
      if s.table.closed {
        ClosedIsEmpty(s);
      }
      SameBounds(s, t);
  }

  lemma FewerEntries(s: System, t: System, table: Table)
    requires EntriesAreCurrent(s) && t.requests == s.requests && t.owners == s.owners && |t.boxes| == |s.boxes| && t.table == table
    requires forall id :: id in table.pending ==> id in s.table.pending && table.pending[id] == s.table.pending[id]
    ensures EntriesAreCurrent(t)
  {
    hide Key, Current;
  }

  lemma ClosedIsEmpty(s: System)
    requires Bounded(s) && s.table.closed
    ensures s.table.pending == map[]
  {
  }

  lemma SameBounds(s: System, t: System)
    requires Bounded(s) && t.requests == s.requests && t.owners == s.owners && t.shutdowns == s.shutdowns
    requires t.table.closed == s.table.closed && (t.table.closed ==> t.table.pending == map[])
    ensures Bounded(t)
  {
  }

  lemma ShutdownKeepsBounds(s: System, t: System)
    requires Bounded(s) && (t == s || t == Shutdown(s).(reader := t.reader))
    ensures Bounded(t)
  {
  }

  lemma ReaderKeepsAnswers(s: System, act: ReaderAct)
    requires Inv(s)
    ensures AnswersMatch(NextReader(s, act))
  {
    hide Key, DutiesFit, EntriesAreCurrent, Bounded;
  }

  lemma ReaderKeepsHands(s: System, act: ReaderAct)
    requires Inv(s)
    ensures HandFits(NextReader(s, act), NextReader(s, act).reader) && HandFits(NextReader(s, act), NextReader(s, act).closer)
  {
    hide Key, DutiesFit, AnswersMatch, Bounded, Current;
  }

  lemma CloserKeepsInv(s: System, act: CloserAct)
    requires Inv(s)
    ensures Inv(NextCloser(s, act))
  {
    hide Key;
    var t := NextCloser(s, act);
    forall c: Channel | c < |t.boxes| ensures Duties(t, c) == Duties(s, c) {
      RangeOfPending(s, c);
    }
  }

  lemma ArrivalKeepsInv(s: System, toolsCall: bool)
    requires Inv(s)
    ensures Inv(Next(s, Arrive(toolsCall)))
  {
    hide Key;
    var t := Next(s, Arrive(toolsCall));
    forall c: Channel | c < |t.boxes| ensures Duties(t, c) == Duties(s, c) {}
  }

  lemma InitiallyInv()
    ensures Inv(INITIAL)
  {
  }

  lemma {:induction false} InvAlways(steps: seq<Step>, n: nat)
    requires n <= |steps|
    ensures Inv(After(steps, n))
  {
    hide Inv, NextRequest, NextReader, NextCloser;
    if n == 0 {
      InitiallyInv();
    } else {
      InvAlways(steps, n - 1);
      var s := After(steps, n - 1);
      match steps[n - 1]
      case Arrive(toolsCall) => ArrivalKeepsInv(s, toolsCall);
      case ByRequest(r, act) => RequestKeepsInv(s, r, act);
      case ByReader(act) => ReaderKeepsInv(s, act);
      case ByCloser(act) => CloserKeepsInv(s, act);
    }
  }

  // ----- what every interleaving guarantees

  /** Each registered channel receives at most one message, always one with the id it
      was registered under, and no sender ever finds its buffer used. */
  lemma OneAnswerPerChannel(steps: seq<Step>, n: nat, ch: Channel)
    requires n <= |steps| && ch < |After(steps, n).boxes|
    ensures var s := After(steps, n);
      && |s.boxes[ch]| <= 1 && ch < |s.owners|
      && (InHand(s.reader, ch) || InHand(s.closer, ch) ==> s.boxes[ch] == [])
      && !(InHand(s.reader, ch) && InHand(s.closer, ch))
      && (s.boxes[ch] != [] && s.boxes[ch][0].Response? ==> s.boxes[ch][0].id == Key(s.owners[ch]))
  {
    InvAlways(steps, n);
    assert Duties(After(steps, n), ch) <= 1;
  }

  /** Across retries the entry under a request's id is its current attempt's channel, and
      a closed stream has no entries; failPending acts at most once. */
  lemma EntryIsCurrentAttempt(steps: seq<Step>, n: nat, r: nat)
    requires n <= |steps|
    ensures var s := After(steps, n);
      && (Key(r) in s.table.pending ==> r < |s.requests| && Current(s.requests[r].pc) == Some(s.table.pending[Key(r)]))
      && (s.table.closed ==> s.table.pending == map[])
      && s.shutdowns <= 1
  {
    InvAlways(steps, n);
    if Key(r) in After(steps, n).table.pending {
      EntryOfRequest(After(steps, n), r);
    }
  }

  /** A request makes at most three attempts, each with a channel of its own, and
      tools/call at most one. */
  lemma AttemptsAreBounded(steps: seq<Step>, n: nat, r: nat)
    requires n <= |steps| && r < |After(steps, n).requests|
    ensures multiset(After(steps, n).owners)[r] <= if After(steps, n).requests[r].toolsCall then 1 else 3
  {
    InvAlways(steps, n);
  }

  /** Once the stream is closed and both senders are idle-handed, a message is there for
      every attempt that still waits. */
  lemma NobodyWaitsOnClosedStream(steps: seq<Step>, n: nat, r: nat)
    requires n <= |steps| && r < |After(steps, n).requests| && After(steps, n).requests[r].pc.Waiting?
    requires After(steps, n).table.closed
    requires var (s, ch) := (After(steps, n), After(steps, n).requests[r].pc.ch); !InHand(s.reader, ch) && !InHand(s.closer, ch)
    ensures var (s, ch) := (After(steps, n), After(steps, n).requests[r].pc.ch); ch < |s.boxes| && s.boxes[ch] != []
  {
    InvAlways(steps, n);
    var s := After(steps, n);
    assert Current(s.requests[r].pc) == Some(s.requests[r].pc.ch);
    assert Duties(s, s.requests[r].pc.ch) == 1;
  }

  // ----- where an answer comes from, and why a request stops

  /** At step m the idle reader read this payload under the id of request r, on whose
      channel ch the request's attempt of that moment was waiting to be answered. */
  ghost predicate ReadAt(steps: seq<Step>, m: nat, r: nat, ch: Channel, payload: string) {
    && m < |steps| && steps[m] == ByReader(ReadResponse(Key(r), payload))
    && After(steps, m).reader.Idle?
    && Key(r) in After(steps, m).table.pending && After(steps, m).table.pending[Key(r)] == ch
  }

  /** At step m the stream ended or was closed, for the first time. */
  ghost predicate ShutAt(steps: seq<Step>, m: nat) {
    && m < |steps| && (steps[m] == ByReader(StreamEnds) || steps[m] == ByCloser(CloseStream))
    && !After(steps, m).table.closed && After(steps, m + 1).table.closed
  }

  ghost predicate CameFrom(steps: seq<Step>, n: nat, r: nat, ch: Channel, message: Message) {
    match message
    case Response(id, payload) => id == Key(r) && exists m: nat :: m < n && ReadAt(steps, m, r, ch, payload)
    case Failed(_) => exists m: nat :: m < n && ShutAt(steps, m)
  }

  ghost predicate HandExplained(steps: seq<Step>, n: nat, owners: seq<nat>, h: Hand) {
    && (h.Delivering? ==> h.ch < |owners| && CameFrom(steps, n, owners[h.ch], h.ch, h.message))
    && (h.FailingAll? && h.todo != {} ==> exists m: nat :: m < n && ShutAt(steps, m))
  }

  ghost predicate Explained(steps: seq<Step>, n: nat)
    requires n <= |steps|
  {
    var s := After(steps, n);
    && |s.boxes| == |s.owners|
    && HandExplained(steps, n, s.owners, s.reader)
    && HandExplained(steps, n, s.owners, s.closer)
    && (forall ch: Channel, i: nat :: ch < |s.boxes| && i < |s.boxes[ch]| ==> CameFrom(steps, n, s.owners[ch], ch, s.boxes[ch][i]))
  }

  lemma StillCameFrom(steps: seq<Step>, n: nat, r: nat, ch: Channel, message: Message)
    requires CameFrom(steps, n, r, ch, message)
    ensures CameFrom(steps, n + 1, r, ch, message)
  {
    hide ReadAt, ShutAt;
  }

  lemma ReadIsSource(steps: seq<Step>, n: nat, r: nat, ch: Channel, payload: string)
    requires ReadAt(steps, n, r, ch, payload)
    ensures CameFrom(steps, n + 1, r, ch, Response(Key(r), payload))
  {
    hide ReadAt, ShutAt;
  }

  lemma HandStaysExplained(steps: seq<Step>, n: nat, owners: seq<nat>, owners': seq<nat>, h: Hand)
    requires HandExplained(steps, n, owners, h) && owners <= owners'
    ensures HandExplained(steps, n + 1, owners', h)
  {
    hide ReadAt, ShutAt, CameFrom;
    if h.Delivering? {
      StillCameFrom(steps, n, owners[h.ch], h.ch, h.message);
    }
  }

  lemma OwnersGrow(s: System, step: Step)
    ensures s.owners <= Next(s, step).owners
    ensures !step.ByReader? ==> Next(s, step).reader == s.reader
    ensures !step.ByCloser? ==> Next(s, step).closer == s.closer
  {
  }

  lemma ReaderExplains(steps: seq<Step>, n: nat)
    requires n < |steps| && Explained(steps, n) && Inv(After(steps, n)) && steps[n].ByReader?
    ensures HandExplained(steps, n + 1, After(steps, n + 1).owners, After(steps, n + 1).reader)
  {
    hide Key, CameFrom, DutiesFit, AnswersMatch, Bounded;
    var s, t := After(steps, n), After(steps, n + 1);
    match steps[n].a
    case ReadResponse(id, payload) =>
      if t.reader == s.reader {
        HandStaysExplained(steps, n, s.owners, t.owners, s.reader);
      } else {
        var ch := t.reader.ch;
        assert id == Key(s.owners[ch]);
        assert ReadAt(steps, n, s.owners[ch], ch, payload);
        ReadIsSource(steps, n, s.owners[ch], ch, payload);
      }
    case StreamEnds =>
      if s.reader.Idle? && !s.table.closed {
        assert ShutAt(steps, n);
      } else {
        HandStaysExplained(steps, n, s.owners, t.owners, s.reader);
      }
    case ReaderSends(_) => HandStaysExplained(steps, n, s.owners, t.owners, s.reader);
  }

  lemma CloserExplains(steps: seq<Step>, n: nat)
    requires n < |steps| && Explained(steps, n) && steps[n].ByCloser?
    ensures HandExplained(steps, n + 1, After(steps, n + 1).owners, After(steps, n + 1).closer)
  {
    hide Key, CameFrom;
    var s, t := After(steps, n), After(steps, n + 1);
    HandStaysExplained(steps, n, s.owners, t.owners, s.closer);
    if steps[n].c.CloseStream? && s.closer.Idle? && !s.table.closed {
      assert ShutAt(steps, n);
    }
  }

  lemma FailureIsSource(steps: seq<Step>, n: nat, m: nat, r: nat, ch: Channel, reason: string)
    requires m < n && ShutAt(steps, m)
    ensures CameFrom(steps, n, r, ch, Failed(reason))
  {
    hide ReadAt, ShutAt;
  }

  lemma BoxesExplained(steps: seq<Step>, n: nat)
    requires n < |steps| && Explained(steps, n)
    ensures var t := After(steps, n + 1);
      && |t.boxes| == |t.owners|
      && forall ch: Channel, i: nat :: ch < |t.boxes| && i < |t.boxes[ch]| ==> CameFrom(steps, n + 1, t.owners[ch], ch, t.boxes[ch][i])
  {
    hide Key, CameFrom, ShutAt;
    var s, t := After(steps, n), After(steps, n + 1);
    OwnersGrow(s, steps[n]);
    assert |t.boxes| == |t.owners|;
    forall ch: Channel, i: nat | ch < |t.boxes| && i < |t.boxes[ch]| ensures CameFrom(steps, n + 1, t.owners[ch], ch, t.boxes[ch][i]) {
      if ch < |s.boxes| && i < |s.boxes[ch]| {
        assert t.boxes[ch][i] == s.boxes[ch][i] && t.owners[ch] == s.owners[ch];
        StillCameFrom(steps, n, t.owners[ch], ch, t.boxes[ch][i]);
      } else if s.reader.Delivering? && steps[n] == ByReader(ReaderSends(ch)) {
        StillCameFrom(steps, n, t.owners[ch], ch, t.boxes[ch][i]);
      } else {
        var m: nat :| m < n && ShutAt(steps, m);
        FailureIsSource(steps, n + 1, m, t.owners[ch], ch, t.boxes[ch][i].reason);
      }
    }
  }

  lemma {:induction false} AlwaysExplained(steps: seq<Step>, n: nat)
    requires n <= |steps|
    ensures Explained(steps, n)
  {
    hide Key, CameFrom, NextRequest, NextReader, NextCloser, Inv, HandExplained;
    if n == 0 {
      InitiallyExplained(steps);
    } else {
      AlwaysExplained(steps, n - 1);
      InvAlways(steps, n - 1);
      var s := After(steps, n - 1);
      OwnersGrow(s, steps[n - 1]);
      BoxesExplained(steps, n - 1);
      if steps[n - 1].ByReader? {
        ReaderExplains(steps, n - 1);
      } else {
        HandStaysExplained(steps, n - 1, s.owners, After(steps, n).owners, s.reader);
      }
      if steps[n - 1].ByCloser? {
        CloserExplains(steps, n - 1);
      } else {
        HandStaysExplained(steps, n - 1, s.owners, After(steps, n).owners, s.closer);
      }
    }
  }

  lemma InitiallyExplained(steps: seq<Step>)
    ensures Explained(steps, 0)
  {
  }

  /** The answer a request has taken from a channel of its own. */
  function Answer(pc: Pc): Option<Message> {
    if pc.Leaving? || pc.Ended? then pc.answer else None
  }

  /** Some channel made by an attempt of request r holds this message. */
  ghost predicate Holds(s: System, r: nat, message: Message) {
    exists ch: Channel :: ch < |s.boxes| && ch < |s.owners| && s.owners[ch] == r && s.boxes[ch] != [] && s.boxes[ch][0] == message
  }

  lemma HoldsStill(s: System, step: Step, r: nat, message: Message)
    requires |s.boxes| == |s.owners| && Holds(s, r, message)
    ensures Holds(Next(s, step), r, message)
  {
    hide Key;
    var ch: Channel :| ch < |s.boxes| && ch < |s.owners| && s.owners[ch] == r && s.boxes[ch] != [] && s.boxes[ch][0] == message;
    var t := Next(s, step);
    assert ch < |t.boxes| && ch < |t.owners| && t.owners[ch] == r && t.boxes[ch] != [] && t.boxes[ch][0] == message;
  }

  lemma {:induction false} AnswersAreHeld(steps: seq<Step>, n: nat, r: nat)
    requires n <= |steps| && r < |After(steps, n).requests| && Answer(After(steps, n).requests[r].pc).Some?
    ensures Holds(After(steps, n), r, Answer(After(steps, n).requests[r].pc).value)
  {
    hide Key, Holds, Next, Inv;
    var s, t := After(steps, n - 1), After(steps, n);
    InvAlways(steps, n - 1);
    if r >= |s.requests| {
      ArrivesReady(s, steps[n - 1], r);
    } else if Answer(s.requests[r].pc) == Answer(t.requests[r].pc) {
      AnswersAreHeld(steps, n - 1, r);
      ChannelsAreOwned(s);
      HoldsStill(s, steps[n - 1], r, Answer(t.requests[r].pc).value);
    } else {
      ReceivedIsHeld(s, steps[n - 1], r);
    }
  }

  lemma ChannelsAreOwned(s: System)
    requires Inv(s)
    ensures |s.boxes| == |s.owners|
  {
  }

  lemma ReceivedIsHeld(s: System, step: Step, r: nat)
    requires Inv(s) && r < |s.requests| && r < |Next(s, step).requests|
    requires Answer(Next(s, step).requests[r].pc).Some? && Answer(Next(s, step).requests[r].pc) != Answer(s.requests[r].pc)
    ensures Holds(Next(s, step), r, Answer(Next(s, step).requests[r].pc).value)
  {
    hide Key, DutiesFit, Bounded, AnswersMatch, HandFits;
    var q := s.requests[r];
    assert q.pc.Waiting? && Current(q.pc) == Some(q.pc.ch);
    assert s.owners[q.pc.ch] == r;
  }

  /** A response that a request received is one the reader read, payload included, under
      the request's own id while a channel of one of its own attempts was waiting there. */
  lemma {:induction false} AnswersWereRead(steps: seq<Step>, n: nat, r: nat, id: string, payload: string)
    requires n <= |steps| && r < |After(steps, n).requests|
    requires After(steps, n).requests[r].pc == Ended(Some(Response(id, payload)))
    ensures id == Key(r)
    ensures exists ch: Channel, m: nat ::
      m < n && ch < |After(steps, n).owners| && After(steps, n).owners[ch] == r && ReadAt(steps, m, r, ch, payload)
  {
    hide Key, ReadAt, ShutAt, HandExplained;
    var s := After(steps, n);
    AnswersAreHeld(steps, n, r);
    AlwaysExplained(steps, n);
    var ch: Channel :| ch < |s.boxes| && ch < |s.owners| && s.owners[ch] == r && s.boxes[ch] != [] && s.boxes[ch][0] == Response(id, payload);
    assert CameFrom(steps, n, r, ch, s.boxes[ch][0]);
  }

  /** A failure that a request received means the stream had ended or was closed. */
  lemma {:induction false} FailuresHaveACause(steps: seq<Step>, n: nat, r: nat, reason: string)
    requires n <= |steps| && r < |After(steps, n).requests|
    requires After(steps, n).requests[r].pc == Ended(Some(Failed(reason)))
    ensures exists m: nat :: m < n && ShutAt(steps, m)
  {
    hide Key, ReadAt, ShutAt, HandExplained;
    var s := After(steps, n);
    AnswersAreHeld(steps, n, r);
    AlwaysExplained(steps, n);
    var ch: Channel :| ch < |s.boxes| && ch < |s.owners| && s.owners[ch] == r && s.boxes[ch] != [] && s.boxes[ch][0] == Failed(reason);
    assert CameFrom(steps, n, r, ch, s.boxes[ch][0]);
  }

  /** Something other than an answer or a transient failure decides request r in this step. */
  predicate Decides(s: System, step: Step, r: nat) {
    && r < |s.requests|
    && ((step == ByRequest(r, Attempt) && s.table.closed)
        || step == ByRequest(r, PostEnds(Final)) || step == ByRequest(r, ContextEnds))
  }

  ghost predicate Decided(steps: seq<Step>, n: nat, r: nat)
    requires n <= |steps|
  {
    exists m: nat :: m < n && Decides(After(steps, m), steps[m], r)
  }

  predicate OutOfAttempts(q: Request) { q.attempts == MaxAttempts(q.toolsCall) }

  lemma StopsInStep(s: System, step: Step, r: nat)
    requires Bounded(s) && r < |s.requests| && !Decides(s, step, r)
    ensures r < |Next(s, step).requests|
    ensures var (q, q') := (s.requests[r], Next(s, step).requests[r]);
      && (q'.pc.Leaving? && !q'.pc.retry && Answer(q'.pc).None? ==> q.pc.Leaving? && !q.pc.retry && Answer(q.pc).None?)
      && (q'.pc == Ended(None) ==>
          (q.pc == Ended(None) && q'.attempts == q.attempts)
          || (q.pc.Leaving? && !q.pc.retry && Answer(q.pc).None?) || OutOfAttempts(q'))
      && q'.toolsCall == q.toolsCall
  {
    hide Key;
  }

  lemma {:induction false} StopsForAReason(steps: seq<Step>, n: nat, r: nat)
    requires n <= |steps| && r < |After(steps, n).requests|
    ensures var q := After(steps, n).requests[r];
      && (q.pc == Ended(None) ==> Decided(steps, n, r) || OutOfAttempts(q))
      && (q.pc.Leaving? && !q.pc.retry && Answer(q.pc).None? ==> Decided(steps, n, r))
  {
    hide Key, Next, Inv, OutOfAttempts, Decides;
    if n > 0 {
      var s := After(steps, n - 1);
      if Decides(s, steps[n - 1], r) {
        assert Decided(steps, n, r);
      } else if r < |s.requests| {
        StopsForAReason(steps, n - 1, r);
        InvAlways(steps, n - 1);
        BoundedOf(s);
        StopsInStep(s, steps[n - 1], r);
        StaysDecided(steps, n - 1, r);
        SameAttempts(s.requests[r], After(steps, n).requests[r]);
      } else {
        ArrivesReady(s, steps[n - 1], r);
      }
    }
  }

  lemma SameAttempts(q: Request, q': Request)
    requires q'.toolsCall == q.toolsCall
    ensures q'.attempts == q.attempts ==> OutOfAttempts(q') == OutOfAttempts(q)
  {
  }

  lemma BoundedOf(s: System)
    requires Inv(s)
    ensures Bounded(s)
  {
  }

  lemma StaysDecided(steps: seq<Step>, n: nat, r: nat)
    requires n < |steps|
    ensures Decided(steps, n, r) ==> Decided(steps, n + 1, r)
  {
    hide Decides;
  }

  lemma ArrivesReady(s: System, step: Step, r: nat)
    requires |s.requests| <= r < |Next(s, step).requests|
    ensures Next(s, step).requests[r].pc.Ready?
  {
    hide Key;
  }

  /** A request that only ever met transient failures and ends without an answer has made
      its full number of attempts: one for tools/call and three for anything else. */
  lemma {:induction false} TransientFailuresAreRetried(steps: seq<Step>, n: nat, r: nat)
    requires n <= |steps| && r < |After(steps, n).requests| && After(steps, n).requests[r].pc == Ended(None)
    requires forall m: nat :: m < n ==> !Decides(After(steps, m), steps[m], r)
    ensures multiset(After(steps, n).owners)[r] == if After(steps, n).requests[r].toolsCall then 1 else 3
  {
    hide Key, Decides, NextRequest, NextReader, NextCloser;
    StopsForAReason(steps, n, r);
    InvAlways(steps, n);
  }

  /** The request will make no further attempt. */
  predicate IsOver(pc: Pc) { pc.Ended? || (pc.Leaving? && !pc.retry) }

  lemma OverStaysOver(s: System, step: Step, r: nat)
    requires r < |s.requests| && r < |Next(s, step).requests| && IsOver(s.requests[r].pc)
    ensures IsOver(Next(s, step).requests[r].pc) && Next(s, step).requests[r].attempts == s.requests[r].attempts
  {
    hide Key;
  }

  lemma RequestsStay(s: System, step: Step)
    ensures |s.requests| <= |Next(s, step).requests|
  {
    hide Key;
  }

  /** The step brings request r an answer, a final failure or the end of its context. */
  predicate Stops(s: System, step: Step, r: nat) {
    r < |s.requests| && (
      var pc := s.requests[r].pc;
      || (step == ByRequest(r, PostEnds(Final)) && pc.Posting?)
      || (step == ByRequest(r, ContextEnds) && pc.Waiting?)
      || (step == ByRequest(r, Receive) && pc.Waiting? && pc.ch < |s.boxes| && s.boxes[pc.ch] != []))
  }

  lemma StopIsOver(s: System, step: Step, r: nat)
    requires Stops(s, step, r)
    ensures r < |Next(s, step).requests| && IsOver(Next(s, step).requests[r].pc)
    ensures Next(s, step).requests[r].attempts == s.requests[r].attempts
  {
    hide Key;
  }

  /** Such a step is the end of a request: it makes no attempt ever after. */
  lemma {:induction false} DecidedRequestsStop(steps: seq<Step>, m: nat, n: nat, r: nat)
    requires m < n <= |steps| && Stops(After(steps, m), steps[m], r)
    ensures r < |After(steps, m).requests| && r < |After(steps, n).requests|
    ensures IsOver(After(steps, n).requests[r].pc) && After(steps, n).requests[r].attempts == After(steps, m).requests[r].attempts
    ensures multiset(After(steps, n).owners)[r] == multiset(After(steps, m).owners)[r]
    decreases n
  {
    hide Key, Inv, Next, Stops, IsOver;
    InvAlways(steps, m);
    InvAlways(steps, n);
    if m == n - 1 {
      StopIsOver(After(steps, m), steps[m], r);
    } else {
      DecidedRequestsStop(steps, m, n - 1, r);
      RequestsStay(After(steps, n - 1), steps[n - 1]);
      OverStaysOver(After(steps, n - 1), steps[n - 1], r);
    }
    StoppedExists(After(steps, m), steps[m], r);
    AttemptsAreChannels(After(steps, m), r);
    AttemptsAreChannels(After(steps, n), r);
  }

  lemma StoppedExists(s: System, step: Step, r: nat)
    requires Stops(s, step, r)
    ensures r < |s.requests|
  {
  }

  lemma AttemptsAreChannels(s: System, r: nat)
    requires Inv(s) && r < |s.requests|
    ensures multiset(s.owners)[r] == s.requests[r].attempts
  {
  }
}
