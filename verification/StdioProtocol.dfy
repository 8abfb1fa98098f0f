/** Request and response correlation of the stdio MCP client (JSON-RPC 2.0, section 5).

    The client's fields change only in short critical sections; everything between two
    sections can interleave with requesters, the reader, the process waiter and Close. */
module StdioProtocol {
  import opened Prelude
  import opened Decimal

  // ----- the fields under the mutex, section by section

  /** A channel is named by the number of the request that made it. */
  type Channel = nat

  datatype Table = Table(closed: bool, processDone: bool, pending: map<string, Channel>)

  predicate Refuses(t: Table) { t.closed || t.processDone }

  function Registered(t: Table, key: string, ch: Channel): Table {
    if Refuses(t) then t else t.(pending := t.pending[key := ch])
  }

  function Without(t: Table, key: string): Table { t.(pending := t.pending - {key}) }

  function Emptied(t: Table): Table { t.(pending := map[]) }

  class Client {
    var nextId: nat
    var closed: bool
    var processDone: bool
    var pending: map<string, Channel>

    constructor ()
      ensures nextId == 0 && State() == Table(false, false, map[])
    {
      nextId, closed, processDone, pending := 0, false, false, map[];
    }

    function State(): Table
      reads this
    {
      Table(closed, processDone, pending)
    }

    method NextId() returns (id: nat)
      modifies this`nextId
      ensures id == nextId == old(nextId) + 1
    {
      nextId := nextId + 1;
      id := nextId;
    }

    method Register(key: string, ch: Channel) returns (ok: bool)
      modifies this`pending
      ensures ok == !Refuses(old(State())) && State() == Registered(old(State()), key, ch)
    {
      if closed {
        return false;
      }
      if processDone {
        return false;
      }
      pending := pending[key := ch];
      ok := true;
    }

    method RemovePending(key: string)
      modifies this`pending
      ensures State() == Without(old(State()), key)
    {
      pending := pending - {key};
    }

    /** The reader claims the channel waiting for a response id. */
    method Claim(key: string) returns (ch: Option<Channel>)
      modifies this`pending
      ensures ch == (if key in old(pending) then Some(old(pending)[key]) else None)
      ensures State() == Without(old(State()), key)
    {
      ch := if key in pending then Some(pending[key]) else None;
      pending := pending - {key};
    }

    /** failPending swaps the map and fails the old one outside the section. */
    method TakeAll() returns (taken: map<string, Channel>)
      modifies this`pending
      ensures taken == old(pending) && State() == Emptied(old(State()))
    {
      taken := pending;
      pending := map[];
    }

    method ProcessExited()
      modifies this`processDone
      ensures State() == old(State()).(processDone := true)
    {
      processDone := true;
    }

    method Close()
      modifies this`closed
      ensures State() == old(State()).(closed := true)
    {
      closed := true;
    }
  }

  // ----- all goroutines together

  datatype Message = Response(id: string, payload: string) | Failed(reason: string)

  /** Where the goroutine of one request stands. */
  datatype Caller = Numbered | Writing | Selecting | Abandoning | Returned(answer: Option<Message>)

  datatype Reader = Scanning | Delivering(ch: Channel, message: Message) | FailingAll(todo: set<Channel>) | ReaderDone

  datatype Waiter = ProcessRunning | ProcessGone | FailingRest(left: set<Channel>) | WaiterDone

  /** `boxes[k]` lists every message ever sent on the channel of request k; `failed` are
      the requests the waiter took upon itself to fail. */
  datatype System = System(
    table: Table, callers: seq<Caller>, boxes: seq<seq<Message>>,
    reader: Reader, waiter: Waiter, failed: set<Channel>)

  const INITIAL := System(Table(false, false, map[]), [], [], Scanning, ProcessRunning, {})

  /** Request ids count from 1. */
  function Key(k: Channel): string { Render(k + 1) }

  datatype CallerAct = Enter | WriteSucceeds | WriteFails | ContextEnds | GiveUp | Receive

  datatype ReaderAct = ReadResponse(id: string, payload: string) | ReaderStops | ReaderSends(k: Channel) | ReaderFinishes

  datatype WaiterAct = ExitNoticed | WaiterTakesAll | WaiterSends(k: Channel) | WaiterFinishes

  datatype Step = Arrive | CloseClient | ByCaller(k: Channel, c: CallerAct) | ByReader(r: ReaderAct) | ByWaiter(w: WaiterAct)

  predicate At(s: System, k: Channel, c: Caller) { k < |s.callers| && s.callers[k] == c }

  function Sent(s: System, k: Channel, m: Message): System
    requires k < |s.boxes|
  {
    s.(boxes := s.boxes[k := s.boxes[k] + [m]])
  }

  function Moved(s: System, k: Channel, c: Caller): System
    requires k < |s.callers|
  {
    s.(callers := s.callers[k := c])
  }

  /** sendRequest after its id is taken: each act is one section, one write or one select. */
  function NextCaller(s: System, k: Channel, act: CallerAct): System {
    match act
    case Enter =>
      if !At(s, k, Numbered) then s
      else if Refuses(s.table) then Moved(s, k, Returned(None))
      else Moved(s, k, Writing).(table := Registered(s.table, Key(k), k))
    case WriteSucceeds => if At(s, k, Writing) then Moved(s, k, Selecting) else s
    case WriteFails => if At(s, k, Writing) then Moved(s, k, Abandoning) else s
    case ContextEnds => if At(s, k, Selecting) then Moved(s, k, Abandoning) else s
    case GiveUp =>
      if At(s, k, Abandoning) then Moved(s, k, Returned(None)).(table := Without(s.table, Key(k))) else s
    case Receive =>
      if At(s, k, Selecting) && k < |s.boxes| && s.boxes[k] != [] then Moved(s, k, Returned(Some(s.boxes[k][0]))) else s
  }

  function Range(m: map<string, Channel>): set<Channel> { set key | key in m :: m[key] }

  function NextReader(s: System, act: ReaderAct): System {
    match act
    case ReadResponse(id, payload) =>
      if !s.reader.Scanning? || id == "" then s else
      s.(table := Without(s.table, id),
         reader := if id in s.table.pending then Delivering(s.table.pending[id], Response(id, payload)) else Scanning)
    case ReaderStops =>
      if s.reader.Scanning? then s.(table := Emptied(s.table), reader := FailingAll(Range(s.table.pending))) else s
    case ReaderSends(k) =>
      if k >= |s.boxes| then s
      else if s.reader.Delivering? && s.reader.ch == k then Sent(s, k, s.reader.message).(reader := Scanning)
      else if s.reader.FailingAll? && k in s.reader.todo then
        Sent(s, k, Failed("reader stopped")).(reader := FailingAll(s.reader.todo - {k}))
      else s
    case ReaderFinishes => if s.reader == FailingAll({}) then s.(reader := ReaderDone) else s
  }

  function NextWaiter(s: System, act: WaiterAct): System {
    match act
    case ExitNoticed =>
      if s.waiter.ProcessRunning? then s.(table := s.table.(processDone := true), waiter := ProcessGone) else s
    case WaiterTakesAll =>
      if !s.waiter.ProcessGone? then s else
      var taken := Range(s.table.pending);
      s.(table := Emptied(s.table), waiter := FailingRest(taken), failed := taken)
    case WaiterSends(k) =>
      if k < |s.boxes| && s.waiter.FailingRest? && k in s.waiter.left then
        Sent(s, k, Failed("process exited")).(waiter := FailingRest(s.waiter.left - {k}))
      else s
    case WaiterFinishes => if s.waiter == FailingRest({}) then s.(waiter := WaiterDone) else s
  }

  function Next(s: System, step: Step): System {
    match step
    case Arrive => s.(callers := s.callers + [Numbered], boxes := s.boxes + [[]])
    case CloseClient => s.(table := s.table.(closed := true))
    case ByCaller(k, act) => NextCaller(s, k, act)
    case ByReader(act) => NextReader(s, act)
    case ByWaiter(act) => NextWaiter(s, act)
  }

  function After(steps: seq<Step>, n: nat): System
    requires n <= |steps|
  {
    if n == 0 then INITIAL else Next(After(steps, n - 1), steps[n - 1])
  }

  // ----- who may still send on a channel

  predicate InReader(s: System, k: Channel) {
    || (s.reader.Delivering? && s.reader.ch == k)
    || (s.reader.FailingAll? && k in s.reader.todo)
  }

  predicate InWaiter(s: System, k: Channel) { s.waiter.FailingRest? && k in s.waiter.left }

  /** The obligation to answer request k: in the table, in one sender's hand, or met. */
  function Duties(s: System, k: Channel): nat
    requires k < |s.boxes|
  {
    (if Key(k) in s.table.pending then 1 else 0) + (if InReader(s, k) then 1 else 0)
    + (if InWaiter(s, k) then 1 else 0) + |s.boxes[k]|
  }

  /** A request has no duty before it enters, exactly one while it waits, and at most
      one ever after. */
  predicate DutyFits(c: Caller, duties: nat) {
    match c
    case Numbered => duties == 0
    case Writing => duties == 1
    case Selecting => duties == 1
    case Abandoning => duties == 1
    case Returned(_) => duties <= 1
  }

  ghost predicate KeysMatch(s: System) {
    && (forall key :: key in s.table.pending ==> s.table.pending[key] < |s.boxes| && key == Key(s.table.pending[key]))
    && (s.reader.FailingAll? ==> forall k :: k in s.reader.todo ==> k < |s.boxes|)
    && (s.waiter.FailingRest? ==> forall k :: k in s.waiter.left ==> k < |s.boxes|)
    && (s.reader.Delivering? ==>
        s.reader.ch < |s.boxes| && s.reader.message.Response? && s.reader.message.id == Key(s.reader.ch))
  }

  ghost predicate DutiesFit(s: System) {
    && |s.callers| == |s.boxes|
    && forall k: Channel :: k < |s.boxes| ==> DutyFits(s.callers[k], Duties(s, k))
  }

  ghost predicate AnswersMatch(s: System) {
    && |s.callers| == |s.boxes|
    && (forall k: Channel, i: nat :: k < |s.boxes| && i < |s.boxes[k]| && s.boxes[k][i].Response? ==> s.boxes[k][i].id == Key(k))
    && (forall k: Channel :: k < |s.callers| && s.callers[k].Returned? && s.callers[k].answer.Some? ==>
         s.boxes[k] != [] && s.callers[k].answer.value == s.boxes[k][0])
  }

  ghost predicate WaiterKept(s: System) {
    && (!s.waiter.ProcessRunning? ==> s.table.processDone)
    && (s.waiter.FailingRest? || s.waiter.WaiterDone? ==>
        && s.table.pending == map[]
        && forall k :: k in s.failed ==> k < |s.boxes| && (InWaiter(s, k) || s.boxes[k] != []))
  }

  ghost predicate Inv(s: System) { KeysMatch(s) && DutiesFit(s) && AnswersMatch(s) && WaiterKept(s) }

  lemma KeysDiffer(j: Channel, k: Channel)
    requires Key(j) == Key(k)
    ensures j == k
  {
    RenderIsInjective(j + 1, k + 1);
  }

  lemma EmptyStaysEmpty(t: Table, key: string)
    requires t.pending == map[]
    ensures Without(t, key).pending == map[]
  {
  }

  lemma CallerKeepsDuties(s: System, k: Channel, act: CallerAct)
    requires KeysMatch(s) && DutiesFit(s)
    ensures DutiesFit(NextCaller(s, k, act))
  {
    hide Key;
    var t := NextCaller(s, k, act);
    if t != s {
      forall j: Channel | j < |t.boxes| ensures DutyFits(t.callers[j], Duties(t, j)) {
        assert DutyFits(s.callers[j], Duties(s, j)) && DutyFits(s.callers[k], Duties(s, k));
        if j != k && Key(j) == Key(k) {
          KeysDiffer(j, k);
        }
      }
    }
  }

  lemma CallerKeepsInv(s: System, k: Channel, act: CallerAct)
    requires Inv(s)
    ensures Inv(NextCaller(s, k, act))
  {
    hide Key, DutiesFit;
    assert |s.callers| == |s.boxes|;
    CallerKeepsDuties(s, k, act);
    if s.table.pending == map[] {
      EmptyStaysEmpty(s.table, Key(k));
    }
  }

  lemma RangeOfPending(s: System, k: Channel)
    requires KeysMatch(s)
    ensures k in Range(s.table.pending) <==> k < |s.boxes| && Key(k) in s.table.pending && s.table.pending[Key(k)] == k
  {
  }

  lemma PendingIsOwn(s: System, k: Channel)
    requires KeysMatch(s) && Key(k) in s.table.pending
    ensures s.table.pending[Key(k)] == k
  {
    KeysDiffer(s.table.pending[Key(k)], k);
  }

  lemma ReaderKeepsInv(s: System, act: ReaderAct)
    requires Inv(s)
    ensures Inv(NextReader(s, act))
  {
    hide Key;
    var t := NextReader(s, act);
    if act.ReadResponse? && s.table.pending == map[] {
      EmptyStaysEmpty(s.table, act.id);
    }
    forall j: Channel | j < |s.boxes| ensures DutyFits(t.callers[j], Duties(t, j)) {
      assert DutyFits(s.callers[j], Duties(s, j));
      RangeOfPending(s, j);
      if Key(j) in s.table.pending {
        PendingIsOwn(s, j);
      }
      if act.ReadResponse? && act.id in s.table.pending && s.table.pending[act.id] == j {
        assert act.id == Key(j);
      }
    }
  }

  lemma WaiterKeepsInv(s: System, act: WaiterAct)
    requires Inv(s)
    ensures Inv(NextWaiter(s, act))
  {
    hide Key;
    var t := NextWaiter(s, act);
    forall j: Channel | j < |s.boxes| ensures DutyFits(t.callers[j], Duties(t, j)) {
      assert DutyFits(s.callers[j], Duties(s, j));
      RangeOfPending(s, j);
      if Key(j) in s.table.pending {
        PendingIsOwn(s, j);
      }
    }
  }

  lemma ArrivalKeepsInv(s: System)
    requires Inv(s)
    ensures Inv(Next(s, Arrive))
  {
    hide Key;
    var t, newest := Next(s, Arrive), |s.boxes|;
    if Key(newest) in s.table.pending {
      KeysDiffer(s.table.pending[Key(newest)], newest);
    }
    forall j: Channel | j < |t.boxes| ensures DutyFits(t.callers[j], Duties(t, j)) {
      if j < newest {
        assert DutyFits(s.callers[j], Duties(s, j));
      }
    }
  }

  lemma {:induction false} InvAlways(steps: seq<Step>, n: nat)
    requires n <= |steps|
    ensures Inv(After(steps, n))
  {
    hide Inv, NextCaller, NextReader, NextWaiter;
    if n == 0 {
      InitiallyInv();
    } else {
      InvAlways(steps, n - 1);
      var s := After(steps, n - 1);
      match steps[n - 1]
      case Arrive => ArrivalKeepsInv(s);
      case CloseClient => ClosingKeepsInv(s);
      case ByCaller(k, act) => CallerKeepsInv(s, k, act);
      case ByReader(act) => ReaderKeepsInv(s, act);
      case ByWaiter(act) => WaiterKeepsInv(s, act);
    }
  }

  lemma InitiallyInv()
    ensures Inv(INITIAL)
  {
  }

  lemma ClosingKeepsInv(s: System)
    requires Inv(s)
    ensures Inv(Next(s, CloseClient))
  {
    hide Key;
    var t := Next(s, CloseClient);
    forall j: Channel | j < |t.boxes| ensures DutyFits(t.callers[j], Duties(t, j)) {
      assert DutyFits(s.callers[j], Duties(s, j));
    }
  }

  // ----- what every interleaving guarantees

  /** Each channel receives at most one message, and whoever is about to send finds the
      capacity-1 buffer never used, so no send blocks. */
  lemma NoSendBlocks(steps: seq<Step>, n: nat, k: Channel)
    requires n <= |steps|
    ensures var s := After(steps, n);
      && (k < |s.boxes| ==> |s.boxes[k]| <= 1)
      && (InReader(s, k) || InWaiter(s, k) ==> k < |s.boxes| && s.boxes[k] == [])
      && !(InReader(s, k) && InWaiter(s, k))
  {
    InvAlways(steps, n);
    var s := After(steps, n);
    if k < |s.boxes| {
      assert DutyFits(s.callers[k], Duties(s, k));
    }
  }

  /** A request that returns a response returns one carrying its own id. */
  lemma AnswersCarryOwnId(steps: seq<Step>, n: nat, k: Channel)
    requires n <= |steps|
    ensures var s := After(steps, n);
      k < |s.callers| && s.callers[k].Returned? && s.callers[k].answer.Some? && s.callers[k].answer.value.Response?
      ==> s.callers[k].answer.value.id == Key(k)
  {
    InvAlways(steps, n);
    var s := After(steps, n);
    if k < |s.callers| && s.callers[k].Returned? && s.callers[k].answer.Some? && s.callers[k].answer.value.Response? {
      assert s.boxes[k] != [] && s.callers[k].answer.value == s.boxes[k][0];
    }
  }

  lemma WaiterStaysDone(s: System, step: Step)
    requires s.waiter.WaiterDone?
    ensures Next(s, step).waiter.WaiterDone?
  {
  }

  /** From the moment waitLoop finishes the pending map is empty for good, and every
      request it failed has its message. */
  lemma {:induction false} NothingPendsAfterWait(steps: seq<Step>, n: nat, m: nat)
    requires n <= m <= |steps| && After(steps, n).waiter.WaiterDone?
    ensures var s := After(steps, m);
      && s.waiter.WaiterDone? && s.table.pending == map[]
      && forall k :: k in s.failed ==> k < |s.boxes| && |s.boxes[k]| == 1
  {
    if n < m {
      NothingPendsAfterWait(steps, n, m - 1);
      WaiterStaysDone(After(steps, m - 1), steps[m - 1]);
    }
    InvAlways(steps, m);
    var s := After(steps, m);
    forall k | k in s.failed ensures k < |s.boxes| && |s.boxes[k]| == 1 {
      NoSendBlocks(steps, m, k);
    }
  }

  /** No request is left waiting: once waitLoop is done and the reader has nothing in
      hand, a message is there for every request that is still selecting. */
  lemma NobodyWaitsForever(steps: seq<Step>, n: nat, k: Channel)
    requires n <= |steps| && After(steps, n).waiter.WaiterDone?
    requires !InReader(After(steps, n), k) && At(After(steps, n), k, Selecting)
    ensures k < |After(steps, n).boxes| && After(steps, n).boxes[k] != []
  {
    InvAlways(steps, n);
    var s := After(steps, n);
    assert DutyFits(s.callers[k], Duties(s, k));
  }

  // ----- where an answer comes from

  /** Request k entered before step n while it could: its channel was registered then. */
  ghost predicate Entered(steps: seq<Step>, n: nat, k: Channel)
    requires n <= |steps|
  {
    exists e: nat :: e < n && steps[e] == ByCaller(k, Enter) && At(After(steps, e), k, Numbered) && !Refuses(After(steps, e).table)
  }

  /** At step m the reader, scanning, read a response with this payload under the id of
      request k, which had entered and was the one waiting under that id. */
  ghost predicate ReadAt(steps: seq<Step>, m: nat, k: Channel, payload: string) {
    && m < |steps| && steps[m] == ByReader(ReadResponse(Key(k), payload))
    && After(steps, m).reader.Scanning?
    && Key(k) in After(steps, m).table.pending && After(steps, m).table.pending[Key(k)] == k
    && Entered(steps, m, k)
  }

  /** At step m the reader stopped or the waiter took the table while request k was in it. */
  ghost predicate FailedAt(steps: seq<Step>, m: nat, k: Channel) {
    && m < |steps|
    && ((steps[m] == ByReader(ReaderStops) && After(steps, m).reader.Scanning?)
        || (steps[m] == ByWaiter(WaiterTakesAll) && After(steps, m).waiter.ProcessGone?))
    && Key(k) in After(steps, m).table.pending && After(steps, m).table.pending[Key(k)] == k
  }

  ghost predicate CameFrom(steps: seq<Step>, n: nat, k: Channel, message: Message)
    requires n <= |steps|
  {
    match message
    case Response(id, payload) => id == Key(k) && exists m: nat :: m < n && ReadAt(steps, m, k, payload)
    case Failed(_) => exists m: nat :: m < n && FailedAt(steps, m, k)
  }

  ghost predicate Explained(steps: seq<Step>, n: nat)
    requires n <= |steps|
  {
    var s := After(steps, n);
    && (forall key :: key in s.table.pending ==> Entered(steps, n, s.table.pending[key]))
    && (s.reader.Delivering? ==> CameFrom(steps, n, s.reader.ch, s.reader.message))
    && (s.reader.FailingAll? ==> forall k :: k in s.reader.todo ==> CameFrom(steps, n, k, Failed("")))
    && (s.waiter.FailingRest? ==> forall k :: k in s.waiter.left ==> CameFrom(steps, n, k, Failed("")))
    && (forall k: Channel, i: nat :: k < |s.boxes| && i < |s.boxes[k]| ==> CameFrom(steps, n, k, s.boxes[k][i]))
  }

  lemma StaysEntered(steps: seq<Step>, n: nat, k: Channel)
    requires n < |steps| && Entered(steps, n, k)
    ensures Entered(steps, n + 1, k)
  {
  }

  lemma StillCameFrom(steps: seq<Step>, n: nat, k: Channel, message: Message)
    requires n < |steps| && CameFrom(steps, n, k, message)
    ensures CameFrom(steps, n + 1, k, message)
  {
    hide ReadAt, FailedAt, After;
  }

  lemma ReaderExplains(steps: seq<Step>, n: nat)
    requires n < |steps| && Explained(steps, n) && KeysMatch(After(steps, n))
    requires steps[n].ByReader?
    ensures var t := After(steps, n + 1);
      && (t.reader.Delivering? ==> CameFrom(steps, n + 1, t.reader.ch, t.reader.message))
      && (t.reader.FailingAll? ==> forall k :: k in t.reader.todo ==> CameFrom(steps, n + 1, k, Failed("")))
  {
    hide Key, Entered, CameFrom;
    var s, t := After(steps, n), After(steps, n + 1);
    if t.reader.Delivering? {
      var k := t.reader.ch;
      if s.reader.Delivering? {
        StillCameFrom(steps, n, k, t.reader.message);
      } else {
        var id, payload := steps[n].r.id, steps[n].r.payload;
        assert id in s.table.pending && s.table.pending[id] == k && id == Key(k);
        assert ReadAt(steps, n, k, payload);
        assert CameFrom(steps, n + 1, k, Response(Key(k), payload)) by { ReadIsSource(steps, n, k, payload); }
      }
    }
    if t.reader.FailingAll? {
      forall k | k in t.reader.todo ensures CameFrom(steps, n + 1, k, Failed("")) {
        if s.reader.FailingAll? {
          StillCameFrom(steps, n, k, Failed(""));
        } else {
          RangeOfPending(s, k);
          FailureIsSource(steps, n, k);
        }
      }
    }
  }

  lemma ReadIsSource(steps: seq<Step>, n: nat, k: Channel, payload: string)
    requires n < |steps| && ReadAt(steps, n, k, payload)
    ensures CameFrom(steps, n + 1, k, Response(Key(k), payload))
  {
    hide ReadAt, FailedAt;
  }

  lemma FailureIsSource(steps: seq<Step>, n: nat, k: Channel)
    requires n < |steps| && FailedAt(steps, n, k)
    ensures CameFrom(steps, n + 1, k, Failed(""))
  {
    hide ReadAt, FailedAt;
  }

  lemma WaiterExplains(steps: seq<Step>, n: nat)
    requires n < |steps| && Explained(steps, n) && KeysMatch(After(steps, n))
    requires steps[n].ByWaiter?
    ensures var t := After(steps, n + 1);
      t.waiter.FailingRest? ==> forall k :: k in t.waiter.left ==> CameFrom(steps, n + 1, k, Failed(""))
  {
    hide Key, Entered, CameFrom;
    var s, t := After(steps, n), After(steps, n + 1);
    if t.waiter.FailingRest? {
      forall k | k in t.waiter.left ensures CameFrom(steps, n + 1, k, Failed("")) {
        if s.waiter.FailingRest? {
          StillCameFrom(steps, n, k, Failed(""));
        } else {
          RangeOfPending(s, k);
          FailureIsSource(steps, n, k);
        }
      }
    }
  }

  lemma EntriesExplained(steps: seq<Step>, n: nat)
    requires n < |steps| && Explained(steps, n)
    ensures var t := After(steps, n + 1); forall key :: key in t.table.pending ==> Entered(steps, n + 1, t.table.pending[key])
  {
    hide Key, Entered, CameFrom;
    var s, t := After(steps, n), After(steps, n + 1);
    forall key | key in t.table.pending ensures Entered(steps, n + 1, t.table.pending[key]) {
      if key in s.table.pending && s.table.pending[key] == t.table.pending[key] {
        StaysEntered(steps, n, t.table.pending[key]);
      } else {
        EntersNow(steps, n, t.table.pending[key]);
      }
    }
  }

  lemma EntersNow(steps: seq<Step>, n: nat, k: Channel)
    requires n < |steps| && steps[n] == ByCaller(k, Enter) && At(After(steps, n), k, Numbered) && !Refuses(After(steps, n).table)
    ensures Entered(steps, n + 1, k)
  {
    hide After;
  }

  lemma FailureIsFailure(steps: seq<Step>, n: nat, k: Channel, reason: string)
    requires n <= |steps| && CameFrom(steps, n, k, Failed(""))
    ensures CameFrom(steps, n, k, Failed(reason))
  {
  }

  lemma BoxesExplained(steps: seq<Step>, n: nat)
    requires n < |steps| && Explained(steps, n) && KeysMatch(After(steps, n))
    ensures var t := After(steps, n + 1);
      forall k: Channel, i: nat :: k < |t.boxes| && i < |t.boxes[k]| ==> CameFrom(steps, n + 1, k, t.boxes[k][i])
  {
    hide Key, Entered, CameFrom;
    var s, t := After(steps, n), After(steps, n + 1);
    forall k: Channel, i: nat | k < |t.boxes| && i < |t.boxes[k]| ensures CameFrom(steps, n + 1, k, t.boxes[k][i]) {
      if k < |s.boxes| && i < |s.boxes[k]| {
        assert t.boxes[k][i] == s.boxes[k][i];
        StillCameFrom(steps, n, k, t.boxes[k][i]);
      } else if t.boxes[k][i].Response? {
        StillCameFrom(steps, n, k, t.boxes[k][i]);
      } else {
        FailureIsFailure(steps, n, k, t.boxes[k][i].reason);
        StillCameFrom(steps, n, k, t.boxes[k][i]);
      }
    }
  }

  lemma {:induction false} AlwaysExplained(steps: seq<Step>, n: nat)
    requires n <= |steps|
    ensures Explained(steps, n)
  {
    hide Key, Entered, CameFrom, NextCaller, NextReader, NextWaiter;
    if n > 0 {
      AlwaysExplained(steps, n - 1);
      InvAlways(steps, n - 1);
      EntriesExplained(steps, n - 1);
      BoxesExplained(steps, n - 1);
      OthersKeepHands(After(steps, n - 1), steps[n - 1]);
      var s := After(steps, n - 1);
      if steps[n - 1].ByReader? {
        ReaderExplains(steps, n - 1);
      } else {
        HandStaysExplained(steps, n - 1);
      }
      if steps[n - 1].ByWaiter? {
        WaiterExplains(steps, n - 1);
      } else {
        RestStaysExplained(steps, n - 1);
      }
    }
  }

  lemma OthersKeepHands(s: System, step: Step)
    ensures !step.ByReader? ==> Next(s, step).reader == s.reader
    ensures !step.ByWaiter? ==> Next(s, step).waiter == s.waiter
  {
  }

  lemma HandStaysExplained(steps: seq<Step>, n: nat)
    requires n < |steps| && Explained(steps, n)
    ensures var s := After(steps, n);
      && (s.reader.Delivering? ==> CameFrom(steps, n + 1, s.reader.ch, s.reader.message))
      && (s.reader.FailingAll? ==> forall k :: k in s.reader.todo ==> CameFrom(steps, n + 1, k, Failed("")))
  {
    hide Key, Entered, CameFrom, NextCaller, NextReader, NextWaiter;
    var s := After(steps, n);
    if s.reader.Delivering? {
      StillCameFrom(steps, n, s.reader.ch, s.reader.message);
    }
    if s.reader.FailingAll? {
      forall k | k in s.reader.todo ensures CameFrom(steps, n + 1, k, Failed("")) {
        StillCameFrom(steps, n, k, Failed(""));
      }
    }
  }

  lemma RestStaysExplained(steps: seq<Step>, n: nat)
    requires n < |steps| && Explained(steps, n)
    ensures var s := After(steps, n);
      s.waiter.FailingRest? ==> forall k :: k in s.waiter.left ==> CameFrom(steps, n + 1, k, Failed(""))
  {
    hide Key, Entered, CameFrom, NextCaller, NextReader, NextWaiter;
    var s := After(steps, n);
    if s.waiter.FailingRest? {
      forall k | k in s.waiter.left ensures CameFrom(steps, n + 1, k, Failed("")) {
        StillCameFrom(steps, n, k, Failed(""));
      }
    }
  }

  /** A returned response is one the reader read, payload included, under the id of the
      request, after the request had entered and while it was the one waiting there. */
  lemma {:induction false} AnswersWereRead(steps: seq<Step>, n: nat, k: Channel, id: string, payload: string)
    requires n <= |steps| && At(After(steps, n), k, Returned(Some(Response(id, payload))))
    ensures id == Key(k)
    ensures exists m: nat :: m < n && ReadAt(steps, m, k, payload)
  {
    hide Inv, Key, ReadAt, FailedAt, Entered;
    InvAlways(steps, n);
    AlwaysExplained(steps, n);
    AnswerIsInBox(After(steps, n), k, Response(id, payload));
    assert CameFrom(steps, n, k, After(steps, n).boxes[k][0]);
  }

  lemma AnswerIsInBox(s: System, k: Channel, message: Message)
    requires Inv(s) && At(s, k, Returned(Some(message)))
    ensures k < |s.boxes| && s.boxes[k] != [] && s.boxes[k][0] == message
  {
  }

  /** A returned failure was sent because the reader stopped or the process exited while
      the request was in the table. */
  lemma {:induction false} FailuresHaveACause(steps: seq<Step>, n: nat, k: Channel, reason: string)
    requires n <= |steps| && At(After(steps, n), k, Returned(Some(Failed(reason))))
    ensures exists m: nat :: m < n && FailedAt(steps, m, k)
  {
    hide Inv, Key, ReadAt, FailedAt, Entered;
    InvAlways(steps, n);
    AlwaysExplained(steps, n);
    AnswerIsInBox(After(steps, n), k, Failed(reason));
    assert CameFrom(steps, n, k, After(steps, n).boxes[k][0]);
  }

  /** A request that returns without an answer was refused when it entered, could not be
      written, or had its context end. */
  ghost predicate LeftAt(steps: seq<Step>, m: nat, k: Channel) {
    && m < |steps|
    && ((steps[m] == ByCaller(k, Enter) && (After(steps, m).table.closed || After(steps, m).table.processDone))
        || (steps[m] == ByCaller(k, WriteFails) && At(After(steps, m), k, Writing))
        || (steps[m] == ByCaller(k, ContextEnds) && At(After(steps, m), k, Selecting)))
  }

  lemma {:induction false} NoAnswerHasACause(steps: seq<Step>, n: nat, k: Channel)
    requires n <= |steps| && (At(After(steps, n), k, Returned(None)) || At(After(steps, n), k, Abandoning))
    ensures exists m: nat :: m < n && LeftAt(steps, m, k)
  {
    hide Key, NextReader, NextWaiter;
    if n > 0 {
      var s := After(steps, n - 1);
      if At(s, k, Returned(None)) || At(s, k, Abandoning) {
        NoAnswerHasACause(steps, n - 1, k);
      } else {
        OthersKeepCallers(s, steps[n - 1]);
        assert LeftAt(steps, n - 1, k);
      }
    }
  }

  lemma OthersKeepCallers(s: System, step: Step)
    ensures step.ByReader? || step.ByWaiter? ==> Next(s, step).callers == s.callers
  {
  }

  lemma {:induction false} StaysClosed(steps: seq<Step>, m: nat, n: nat)
    requires m < n <= |steps| && (steps[m] == CloseClient || After(steps, m).table.processDone)
    ensures After(steps, n).table.closed || After(steps, n).table.processDone
  {
    hide Key;
    if m < n - 1 {
      StaysClosed(steps, m, n - 1);
    }
  }

  /** After Close, or once the process has been seen to exit, no request gets in. */
  lemma {:induction false} NoEntryAfterClose(steps: seq<Step>, m: nat, n: nat, k: Channel)
    requires m < n < |steps| && (steps[m] == CloseClient || After(steps, m).table.processDone)
    requires steps[n] == ByCaller(k, Enter) && At(After(steps, n), k, Numbered)
    ensures At(After(steps, n + 1), k, Returned(None))
    ensures After(steps, n + 1).table.pending == After(steps, n).table.pending
  {
    StaysClosed(steps, m, n);
  }

  /** A request that receives returns exactly what is on its channel. */
  lemma {:induction false} ReceiveReturnsTheMessage(steps: seq<Step>, n: nat, k: Channel, message: Message)
    requires n < |steps| && steps[n] == ByCaller(k, Receive) && At(After(steps, n), k, Selecting)
    requires k < |After(steps, n).boxes| && After(steps, n).boxes[k] == [message]
    ensures At(After(steps, n + 1), k, Returned(Some(message)))
  {
    hide Key;
    var s := After(steps, n);
    assert After(steps, n + 1) == NextCaller(s, k, Receive);
  }
}
