/** The in-memory session store: versioned records under optimistic concurrency, and an
    append-only event log per session. Each operation holds the store's mutex. */
module SessionStore {
  import opened Prelude
  import opened Core
  import opened Decimal

  const TWO_TO_THE_64 := 0x1_0000_0000_0000_0000

  type Version = n: int | 0 <= n < TWO_TO_THE_64

  /** Addition on uint64. */
  function Next(v: Version): Version { if v + 1 == TWO_TO_THE_64 then 0 else v + 1 }

  /** A time; None is the zero time. */
  type Time = Option<int>

  datatype Snapshot = Snapshot(schemaVersion: int, messages: seq<Message>)

  datatype Record = Record(
    id: string, schemaVersion: int, version: Version, snapshot: Snapshot, metadata: map<string, string>,
    createdAt: Time, updatedAt: Time, migrationHint: string)

  /** Sequence numbers count a slice held in memory, so they fit a uint64. */
  datatype LogEvent = LogEvent(
    id: string, sessionID: string, schemaVersion: int, sequence: nat, kind: string, runID: string,
    metadata: map<string, string>, createdAt: Time)

  datatype SessionError = ContextEnded | InvalidRecord | VersionMismatch | NotFound | EventConflict

  datatype Result<+T> = Ok(value: T) | Err(error: SessionError)

  // ----- normalising

  predicate IsSpace(c: char) {
    c in "\t\n\U{0b}\U{0c}\r \U{85}\U{a0}\U{1680}\U{2028}\U{2029}\U{202f}\U{205f}\U{3000}" || '\U{2000}' <= c <= '\U{200a}'
  }

  function TrimLeft(s: string): string { if s != "" && IsSpace(s[0]) then TrimLeft(s[1..]) else s }

  function TrimRight(s: string): string { if s != "" && IsSpace(s[|s| - 1]) then TrimRight(s[..|s| - 1]) else s }

  function TrimSpace(s: string): string { TrimRight(TrimLeft(s)) }

  predicate IsTrimmed(s: string) { s != "" ==> !IsSpace(s[0]) && !IsSpace(s[|s| - 1]) }

  lemma {:induction false} TrimRightTrims(s: string)
    requires s != "" ==> !IsSpace(s[0])
    ensures IsTrimmed(TrimRight(s))
  {
    if s != "" && IsSpace(s[|s| - 1]) {
      TrimRightTrims(s[..|s| - 1]);
    }
  }

  lemma {:induction false} TrimLeftTrims(s: string)
    ensures var t := TrimLeft(s); t != "" ==> !IsSpace(t[0])
  {
    if s != "" && IsSpace(s[0]) {
      TrimLeftTrims(s[1..]);
    }
  }

  lemma TrimSpaceTrims(s: string)
    ensures IsTrimmed(TrimSpace(s)) && TrimSpace(TrimSpace(s)) == TrimSpace(s)
  {
    TrimLeftTrims(s);
    TrimRightTrims(TrimLeft(s));
  }

  const CURRENT_SCHEMA := 1

  function SchemaOr(version: int): int { if version == 0 then CURRENT_SCHEMA else version }

  function CheckSchema(version: int): Option<SessionError> {
    if version < 0 then Some(InvalidRecord)
    else if SchemaOr(version) != CURRENT_SCHEMA then Some(VersionMismatch)
    else None
  }

  predicate HasRoles(messages: seq<Message>) { forall k :: 0 <= k < |messages| ==> messages[k].role != Unset }

  function CheckSnapshot(s: Snapshot): Option<SessionError> {
    if CheckSchema(s.schemaVersion).Some? then CheckSchema(s.schemaVersion)
    else if !HasRoles(s.messages) then Some(InvalidRecord)
    else None
  }

  function NormalizeRecord(record: Record): Result<Record> {
    var id := TrimSpace(record.id);
    if id == "" then Err(InvalidRecord) else
    if CheckSchema(record.schemaVersion).Some? then Err(CheckSchema(record.schemaVersion).value) else
    var version := SchemaOr(record.schemaVersion);
    var snapshot := if record.snapshot.schemaVersion == 0 then record.snapshot.(schemaVersion := version) else record.snapshot;
    if CheckSnapshot(snapshot).Some? then Err(CheckSnapshot(snapshot).value)
    else Ok(record.(id := id, schemaVersion := version, snapshot := snapshot))
  }

  function NormalizeEvent(event: LogEvent): Result<LogEvent> {
    var sessionID, kind := TrimSpace(event.sessionID), TrimSpace(event.kind);
    if sessionID == "" || kind == "" then Err(InvalidRecord)
    else if CheckSchema(event.schemaVersion).Some? then Err(CheckSchema(event.schemaVersion).value)
    else Ok(event.(sessionID := sessionID, kind := kind, id := TrimSpace(event.id), schemaVersion := SchemaOr(event.schemaVersion)))
  }

  // ----- the operations as functions of the store

  datatype Store = Store(sessions: map<string, Record>, events: map<string, seq<LogEvent>>)

  const EMPTY := Store(map[], map[])

  function LogOf(s: Store, id: string): seq<LogEvent> { if id in s.events then s.events[id] else [] }

  function Saved(s: Store, normalized: Record, now: int): (Store, Result<Record>) {
    var known := normalized.id in s.sessions;
    if known && normalized.version != 0 && normalized.version != s.sessions[normalized.id].version then (s, Err(VersionMismatch)) else
    var version := if known then Next(s.sessions[normalized.id].version) else if normalized.version == 0 then 1 else normalized.version;
    var created := if known then s.sessions[normalized.id].createdAt else normalized.createdAt;
    var record := normalized.(version := version, createdAt := if created == None then Some(now) else created, updatedAt := Some(now));
    (s.(sessions := s.sessions[record.id := record]), Ok(record))
  }

  function Save(s: Store, record: Record, now: int): (Store, Result<Record>) {
    match NormalizeRecord(record)
    case Err(error) => (s, Err(error))
    case Ok(normalized) => Saved(s, normalized, now)
  }

  function Load(s: Store, id: string): Result<Record> {
    var key := TrimSpace(id);
    if key == "" then Err(InvalidRecord)
    else if key !in s.sessions then Err(NotFound)
    else match NormalizeRecord(s.sessions[key])
      case Err(error) => Err(error)
      case Ok(_) => Ok(s.sessions[key])
  }

  function Delete(s: Store, id: string): (Store, Option<SessionError>) {
    var key := TrimSpace(id);
    if key == "" then (s, Some(InvalidRecord))
    else if key !in s.sessions then (s, Some(NotFound))
    else (Store(s.sessions - {key}, s.events - {key}), None)
  }

  function DefaultID(sessionID: string, sequence: nat): string { sessionID + ":" + Render(sequence) }

  predicate HasID(log: seq<LogEvent>, id: string) { exists k :: 0 <= k < |log| && log[k].id == id }

  function Appended(s: Store, normalized: LogEvent, now: int): (Store, Result<LogEvent>) {
    var log := LogOf(s, normalized.sessionID);
    var next := |log| + 1;
    if normalized.sequence != 0 && normalized.sequence != next then (s, Err(EventConflict)) else
    var id := if normalized.id == "" then DefaultID(normalized.sessionID, next) else normalized.id;
    if HasID(log, id) then (s, Err(EventConflict)) else
    var created := if normalized.createdAt == None then Some(now) else normalized.createdAt;
    var event := normalized.(sequence := next, id := id, createdAt := created);
    (s.(events := s.events[event.sessionID := log + [event]]), Ok(event))
  }

  function Append(s: Store, event: LogEvent, now: int): (Store, Result<LogEvent>) {
    match NormalizeEvent(event)
    case Err(error) => (s, Err(error))
    case Ok(normalized) => Appended(s, normalized, now)
  }

  function After(log: seq<LogEvent>, sequence: nat): seq<LogEvent> {
    if log == [] then [] else
    var last := log[|log| - 1];
    After(log[..|log| - 1], sequence) + if last.sequence > sequence then [last] else []
  }

  function Listing(s: Store, id: string, after: nat): Result<seq<LogEvent>> {
    var key := TrimSpace(id);
    if key == "" then Err(InvalidRecord) else Ok(After(LogOf(s, key), after))
  }

  class MemorySessionStore {
    var sessions: map<string, Record>
    var events: map<string, seq<LogEvent>>

    constructor ()
      ensures State() == EMPTY
    {
      sessions, events := map[], map[];
    }

    function State(): Store
      reads this
    {
      Store(sessions, events)
    }

    method SaveSession(ended: bool, record: Record, now: int) returns (r: Result<Record>)
      modifies this`sessions
      ensures ended ==> r == Err(ContextEnded) && State() == old(State())
      ensures !ended ==> (State(), r) == Save(old(State()), record, now)
    {
      if ended {
        return Err(ContextEnded);
      }
      var result := NormalizeRecord(record);
      if result.Err? {
        return result;
      }
      var normalized := result.value;
      if normalized.id in sessions {
        var existing := sessions[normalized.id];
        if normalized.version != 0 && normalized.version != existing.version {
          return Err(VersionMismatch);
        }
        normalized := normalized.(version := Next(existing.version));
        normalized := normalized.(createdAt := existing.createdAt);
      } else if normalized.version == 0 {
        normalized := normalized.(version := 1);
      }
      if normalized.createdAt == None {
        normalized := normalized.(createdAt := Some(now));
      }
      normalized := normalized.(updatedAt := Some(now));
      sessions := sessions[normalized.id := normalized];
      r := Ok(normalized);
    }

    method LoadSession(ended: bool, id: string) returns (r: Result<Record>)
      ensures r == if ended then Err(ContextEnded) else Load(State(), id)
    {
      if ended {
        return Err(ContextEnded);
      }
      var key := TrimSpace(id);
      if key == "" {
        return Err(InvalidRecord);
      }
      if key !in sessions {
        return Err(NotFound);
      }
      var checked := NormalizeRecord(sessions[key]);
      if checked.Err? {
        return Err(checked.error);
      }
      r := Ok(sessions[key]);
    }

    method DeleteSession(ended: bool, id: string) returns (r: Option<SessionError>)
      modifies this
      ensures ended ==> r == Some(ContextEnded) && State() == old(State())
      ensures !ended ==> (State(), r) == Delete(old(State()), id)
    {
      if ended {
        return Some(ContextEnded);
      }
      var key := TrimSpace(id);
      if key == "" {
        return Some(InvalidRecord);
      }
      if key !in sessions {
        return Some(NotFound);
      }
      sessions := sessions - {key};
      events := events - {key};
      r := None;
    }

    static method IsTaken(log: seq<LogEvent>, id: string) returns (taken: bool)
      ensures taken <==> HasID(log, id)
    {
      for k := 0 to |log|
        invariant forall j :: 0 <= j < k ==> log[j].id != id
      {
        if log[k].id == id {
          return true;
        }
      }
      return false;
    }

    method AppendSessionEvent(ended: bool, event: LogEvent, now: int) returns (r: Result<LogEvent>)
      modifies this`events
      ensures ended ==> r == Err(ContextEnded) && State() == old(State())
      ensures !ended ==> (State(), r) == Append(old(State()), event, now)
    {
      hide HasID, TrimSpace, DefaultID;
      if ended {
        return Err(ContextEnded);
      }
      var result := NormalizeEvent(event);
      if result.Err? {
        return result;
      }
      var normalized := result.value;
      var log := LogOf(State(), normalized.sessionID);
      var nextSequence := |log| + 1;
      if normalized.sequence == 0 {
        normalized := normalized.(sequence := nextSequence);
      } else if normalized.sequence != nextSequence {
        return Err(EventConflict);
      }
      if normalized.id == "" {
        normalized := normalized.(id := DefaultID(normalized.sessionID, normalized.sequence));
      }
      var taken := IsTaken(log, normalized.id);
      if taken {
        return Err(EventConflict);
      }
      if normalized.createdAt == None {
        normalized := normalized.(createdAt := Some(now));
      }
      events := events[normalized.sessionID := log + [normalized]];
      r := Ok(normalized);
    }

    method ListSessionEvents(ended: bool, id: string, after: nat) returns (r: Result<seq<LogEvent>>)
      ensures r == if ended then Err(ContextEnded) else Listing(State(), id, after)
    {
      if ended {
        return Err(ContextEnded);
      }
      var key := TrimSpace(id);
      if key == "" {
        return Err(InvalidRecord);
      }
      var log, filtered := LogOf(State(), key), [];
      for k := 0 to |log|
        invariant filtered == After(log[..k], after)
      {
        assert log[..k + 1][..k] == log[..k];
        if log[k].sequence > after {
          filtered := filtered + [log[k]];
        }
      }
      assert log[..|log|] == log;
      r := Ok(filtered);
    }
  }

  // ----- runs: any interleaving of callers is a sequence of operations

  datatype Op =
    | SaveOp(record: Record, now: int)
    | LoadOp(id: string)
    | DeleteOp(id: string)
    | AppendOp(event: LogEvent, now: int)
    | ListOp(id: string, after: nat)

  function Apply(s: Store, op: Op): Store {
    match op
    case SaveOp(record, now) => Save(s, record, now).0
    case DeleteOp(id) => Delete(s, id).0
    case AppendOp(event, now) => Append(s, event, now).0
    case _ => s
  }

  function Run(ops: seq<Op>): Store { if ops == [] then EMPTY else Apply(Run(ops[..|ops| - 1]), ops[|ops| - 1]) }

  // ----- what every run keeps

  ghost predicate IsLog(log: seq<LogEvent>, id: string) {
    && (forall k :: 0 <= k < |log| ==> log[k].sequence == k + 1 && log[k].sessionID == id)
    && (forall j, k :: 0 <= j < k < |log| ==> log[j].id != log[k].id)
  }

  ghost predicate Sound(s: Store) {
    && (forall id :: id in s.sessions ==> s.sessions[id].id == id && NormalizeRecord(s.sessions[id]) == Ok(s.sessions[id]))
    && (forall id :: IsLog(LogOf(s, id), id))
  }

  lemma NormalizeIsStable(record: Record, version: Version, created: Time, updated: Time)
    ensures var r := NormalizeRecord(record);
      r.Ok? ==> var stored := r.value.(version := version, createdAt := created, updatedAt := updated); NormalizeRecord(stored) == Ok(stored)
  {
    TrimSpaceTrims(record.id);
    hide TrimSpace, HasRoles;
  }

  lemma SaveKeepsSound(s: Store, record: Record, now: int)
    requires Sound(s)
    ensures Sound(Save(s, record, now).0)
  {
    hide TrimSpace, IsLog;
    var (s1, r) := Save(s, record, now);
    if r.Ok? {
      NormalizeIsStable(record, r.value.version, r.value.createdAt, r.value.updatedAt);
      hide NormalizeRecord;
      assert forall id :: LogOf(s1, id) == LogOf(s, id);
    }
  }

  lemma AppendKeepsSound(s: Store, event: LogEvent, now: int)
    requires Sound(s)
    ensures Sound(Append(s, event, now).0)
  {
    hide NormalizeRecord, TrimSpace, NormalizeEvent, DefaultID;
    var (s1, r) := Append(s, event, now);
    if r.Ok? {
      forall id
        ensures IsLog(LogOf(s1, id), id)
      {
        assert id != r.value.sessionID ==> LogOf(s1, id) == LogOf(s, id);
      }
    }
  }

  lemma DeleteKeepsSound(s: Store, id: string)
    requires Sound(s)
    ensures Sound(Delete(s, id).0)
  {
    hide NormalizeRecord, TrimSpace, IsLog;
    var s1 := Delete(s, id).0;
    forall other
      ensures IsLog(LogOf(s1, other), other)
    {
      assert LogOf(s1, other) == LogOf(s, other) || LogOf(s1, other) == [];
      EmptyIsLog(other);
    }
  }

  lemma EmptyIsLog(id: string)
    ensures IsLog([], id)
  {
  }

  lemma ApplyKeepsSound(s: Store, op: Op)
    requires Sound(s)
    ensures Sound(Apply(s, op))
  {
    hide Sound, Save, Append, Delete;
    match op
    case SaveOp(record, now) => SaveKeepsSound(s, record, now);
    case AppendOp(event, now) => AppendKeepsSound(s, event, now);
    case DeleteOp(id) => DeleteKeepsSound(s, id);
    case _ =>
  }

  /** In every run, logs are numbered 1..n without a gap under unique ids, and every
      stored record is one that a later load accepts. */
  lemma {:induction false} RunsAreSound(ops: seq<Op>)
    ensures Sound(Run(ops))
  {
    if ops != [] {
      RunsAreSound(ops[..|ops| - 1]);
      ApplyKeepsSound(Run(ops[..|ops| - 1]), ops[|ops| - 1]);
    }
  }

  /** What a save reports is what a load then returns. */
  lemma LoadReturnsWhatWasSaved(s: Store, record: Record, now: int)
    requires Sound(s)
    ensures var (s1, r) := Save(s, record, now); if r.Ok? then Load(s1, record.id) == r else s1 == s
  {
    hide NormalizeRecord, TrimSpace;
    ApplyKeepsSound(s, SaveOp(record, now));
    NormalizedID(record);
  }

  lemma NormalizedID(record: Record)
    ensures NormalizeRecord(record).Ok? ==> NormalizeRecord(record).value.id == TrimSpace(record.id) != ""
  {
  }

  // ----- polling a log

  lemma LogPrefix(log: seq<LogEvent>, id: string)
    requires IsLog(log, id) && log != []
    ensures IsLog(log[..|log| - 1], id) && forall k :: 0 <= k < |log| ==> log[k].sequence == k + 1
  {
  }

  lemma AfterByLast(log: seq<LogEvent>, sequence: nat)
    requires log != []
    ensures var last := log[|log| - 1];
      After(log, sequence) == After(log[..|log| - 1], sequence) + if last.sequence > sequence then [last] else []
  {
  }

  lemma {:induction false} AfterIsSuffix(log: seq<LogEvent>, id: string, seen: nat)
    requires IsLog(log, id) && seen <= |log|
    ensures After(log, seen) == log[seen..]
  {
    if log != [] {
      hide IsLog, After;
      var n := |log| - 1;
      LogPrefix(log, id);
      AfterByLast(log, seen);
      if seen <= n {
        AfterIsSuffix(log[..n], id, seen);
        assert log[seen..] == log[..n][seen..] + [log[n]];
      } else {
        NothingAfter(log, seen);
      }
    }
  }

  lemma {:induction false} NothingAfter(log: seq<LogEvent>, seen: nat)
    requires forall k :: 0 <= k < |log| ==> log[k].sequence <= seen
    ensures After(log, seen) == []
  {
    if log != [] {
      NothingAfter(log[..|log| - 1], seen);
    }
  }

  /** A poller among other callers lists what follows the last sequence it has seen. */
  datatype Step = Do(op: Op) | Poll

  function LastSeen(seen: seq<LogEvent>): nat { if seen == [] then 0 else seen[|seen| - 1].sequence }

  function PolledOnce(s: Store, id: string, seen: seq<LogEvent>): seq<LogEvent> {
    var batch := Listing(s, id, LastSeen(seen));
    if batch.Ok? then seen + batch.value else seen
  }

  function Polled(steps: seq<Step>, id: string): (Store, seq<LogEvent>) {
    if steps == [] then (EMPTY, []) else
    var (s, seen) := Polled(steps[..|steps| - 1], id);
    match steps[|steps| - 1]
    case Do(op) => (Apply(s, op), seen)
    case Poll => (s, PolledOnce(s, id, seen))
  }

  predicate Deletes(op: Op, key: string) { op.DeleteOp? && TrimSpace(op.id) == key }

  lemma LogsOnlyGrow(s: Store, op: Op, key: string)
    requires !Deletes(op, key)
    ensures LogOf(s, key) <= LogOf(Apply(s, op), key)
  {
    hide NormalizeRecord, NormalizeEvent, TrimSpace, DefaultID, HasID;
  }

  lemma PollCatchesUp(s: Store, id: string, seen: seq<LogEvent>)
    requires Sound(s) && TrimSpace(id) != "" && seen <= LogOf(s, TrimSpace(id))
    ensures PolledOnce(s, id, seen) == LogOf(s, TrimSpace(id))
  {
    hide NormalizeRecord;
    var log := LogOf(s, TrimSpace(id));
    assert IsLog(log, TrimSpace(id));
    assert LastSeen(seen) == |seen| by {
      assert seen != [] ==> seen[|seen| - 1] == log[|seen| - 1];
    }
    AfterIsSuffix(log, TrimSpace(id), |seen|);
    assert seen + log[|seen|..] == log;
  }

  /** However appends interleave, as long as the session is not deleted, a poller has seen
      a prefix of the log, and all of it right after polling: each event once, in order. */
  lemma {:induction false} PollerSeesEachEventOnce(steps: seq<Step>, id: string)
    requires TrimSpace(id) != ""
    requires forall k :: 0 <= k < |steps| && steps[k].Do? ==> !Deletes(steps[k].op, TrimSpace(id))
    ensures var (s, seen) := Polled(steps, id);
      && Sound(s) && seen <= LogOf(s, TrimSpace(id))
      && (steps != [] && steps[|steps| - 1].Poll? ==> seen == LogOf(s, TrimSpace(id)))
  {
    hide Sound, TrimSpace, Apply, PolledOnce, Deletes, LogOf;
    if steps == [] {
      RunsAreSound([]);
    } else {
      var n := |steps| - 1;
      PollerSeesEachEventOnce(steps[..n], id);
      var (s, seen) := Polled(steps[..n], id);
      match steps[n]
      case Do(op) =>
        ApplyKeepsSound(s, op);
        LogsOnlyGrow(s, op, TrimSpace(id));
      case Poll =>
        PollCatchesUp(s, id, seen);
    }
  }

  function Min(a: nat, b: nat): nat { if a < b then a else b }

  /** Deletion or not, a poll takes exactly what stands beyond the last sequence it has
      seen. After a deletion the log starts again at 1, so its first events are skipped. */
  lemma PollTakesTheRest(s: Store, id: string, seen: seq<LogEvent>)
    requires Sound(s) && TrimSpace(id) != ""
    ensures var log := LogOf(s, TrimSpace(id)); PolledOnce(s, id, seen) == seen + log[Min(LastSeen(seen), |log|)..]
  {
    hide NormalizeRecord;
    var log, last := LogOf(s, TrimSpace(id)), LastSeen(seen);
    assert IsLog(log, TrimSpace(id));
    if last <= |log| {
      AfterIsSuffix(log, TrimSpace(id), last);
    } else {
      NothingAfter(log, last);
    }
  }

  /** A poll delivers the whole log exactly when there is nothing to deliver or the poller
      has seen nothing; otherwise it skips the first LastSeen events, whatever they are. */
  lemma PollDeliversWholeLog(s: Store, id: string, seen: seq<LogEvent>)
    requires Sound(s) && TrimSpace(id) != ""
    ensures var log := LogOf(s, TrimSpace(id));
      PolledOnce(s, id, seen) == seen + log <==> log == [] || LastSeen(seen) == 0
  {
    hide Sound, TrimSpace, PolledOnce, LogOf, LastSeen;
    PollTakesTheRest(s, id, seen);
    var log, last := LogOf(s, TrimSpace(id)), LastSeen(seen);
    if log != [] && last > 0 {
      assert |seen + log[Min(last, |log|)..]| < |seen + log|;
    }
  }

  lemma PollerAheadSeesNothing(s: Store, id: string, seen: seq<LogEvent>)
    requires Sound(s) && LastSeen(seen) >= |LogOf(s, TrimSpace(id))|
    ensures PolledOnce(s, id, seen) == seen
  {
    hide NormalizeRecord;
    var log := LogOf(s, TrimSpace(id));
    assert IsLog(log, TrimSpace(id));
    NothingAfter(log, LastSeen(seen));
  }

  lemma FirstAppend(s: Store, event: LogEvent, now: int)
    requires NormalizeEvent(event) == Ok(event) && event.sequence == 0 && LogOf(s, event.sessionID) == []
    ensures var s1 := Append(s, event, now).0; var log := LogOf(s1, event.sessionID);
      |log| == 1 && log[0].kind == event.kind && log[0].sequence == 1 && s1.sessions == s.sessions
  {
    hide NormalizeEvent, DefaultID;
  }

  lemma FirstSave(record: Record, now: int)
    requires NormalizeRecord(record) == Ok(record)
    ensures var s1 := Save(EMPTY, record, now).0; record.id in s1.sessions && LogOf(s1, record.id) == []
  {
    hide NormalizeRecord;
  }

  lemma DeleteEmpties(s: Store, id: string)
    requires TrimSpace(id) == id != "" && id in s.sessions
    ensures LogOf(Delete(s, id).0, id) == []
  {
    hide TrimSpace;
  }

  lemma PolledPrefixes(steps: seq<Step>, id: string)
    requires |steps| == 6 && steps[0].Do? && steps[1].Do? && steps[2].Poll? && steps[3].Do? && steps[4].Do? && steps[5].Poll?
    ensures var s2 := Apply(Apply(EMPTY, steps[0].op), steps[1].op);
      var s5 := Apply(Apply(s2, steps[3].op), steps[4].op);
      Polled(steps, id) == (s5, PolledOnce(s5, id, PolledOnce(s2, id, [])))
  {
    hide Apply, PolledOnce;
    assert steps[..6] == steps && steps[..0] == [];
    assert Polled(steps[..0], id) == (EMPTY, []);
    hide Polled;
    PolledPrefix(steps, id, 0);
    PolledPrefix(steps, id, 1);
    PolledPrefix(steps, id, 2);
    PolledPrefix(steps, id, 3);
    PolledPrefix(steps, id, 4);
    PolledPrefix(steps, id, 5);
  }

  /** Poll one event, delete the session, append another event, poll again: the second
      event is in the log and the poller never sees it. */
  lemma DeletionHidesAnEvent(first: LogEvent, second: LogEvent, record: Record, now: int)
    requires NormalizeRecord(record) == Ok(record)
    requires NormalizeEvent(first) == Ok(first) && first.sequence == 0 && first.sessionID == record.id
    requires NormalizeEvent(second) == Ok(second) && second.sequence == 0 && second.sessionID == record.id
    requires first.kind != second.kind
    ensures var steps := [Do(SaveOp(record, now)), Do(AppendOp(first, now)), Poll,
                          Do(DeleteOp(record.id)), Do(AppendOp(second, now)), Poll];
      var (s, seen) := Polled(steps, record.id);
      |LogOf(s, record.id)| == 1 && LogOf(s, record.id)[0].kind == second.kind && LogOf(s, record.id)[0] !in seen
  {
    NormalizedID(record);
    hide NormalizeRecord, NormalizeEvent, TrimSpace, Save, Append, Delete, Sound, PolledOnce, LogOf, Polled;
    var id := record.id;
    var s1 := Save(EMPTY, record, now).0;
    var s2 := Append(s1, first, now).0;
    var s4 := Delete(s2, id).0;
    var s5 := Append(s4, second, now).0;
    FirstSave(record, now);
    FirstAppend(s1, first, now);
    DeleteEmpties(s2, id);
    FirstAppend(s4, second, now);
    EmptyIsSound();
    SaveKeepsSound(EMPTY, record, now);
    AppendKeepsSound(s1, first, now);
    DeleteKeepsSound(s2, id);
    AppendKeepsSound(s4, second, now);
    PollTakesTheRest(s2, id, []);
    PollTakesTheRest(s5, id, LogOf(s2, id));
    PolledPrefixes([Do(SaveOp(record, now)), Do(AppendOp(first, now)), Poll, Do(DeleteOp(id)), Do(AppendOp(second, now)), Poll], id);
    assert [] + LogOf(s2, id)[0..] == LogOf(s2, id);
    assert LogOf(s2, id) + LogOf(s5, id)[1..] == LogOf(s2, id);
  }

  lemma EmptyIsSound()
    ensures Sound(EMPTY)
  {
  }

  lemma PolledPrefix(steps: seq<Step>, id: string, n: nat)
    requires n < |steps|
    ensures var (s, seen) := Polled(steps[..n], id);
      Polled(steps[..n + 1], id) == (match steps[n] case Do(op) => (Apply(s, op), seen) case Poll => (s, PolledOnce(s, id, seen)))
  {
    assert steps[..n + 1][..n] == steps[..n];
  }

  // ----- versions

  /** A save that replaces an existing record. */
  predicate Updates(s: Store, op: Op, key: string) {
    && op.SaveOp? && key in s.sessions
    && NormalizeRecord(op.record).Ok? && NormalizeRecord(op.record).value.id == key
    && Save(s, op.record, op.now).1.Ok?
  }

  lemma VersionStep(s: Store, op: Op, key: string)
    requires key in s.sessions && !Deletes(op, key)
    ensures key in Apply(s, op).sessions
    ensures Apply(s, op).sessions[key].version == if Updates(s, op, key) then Next(s.sessions[key].version) else s.sessions[key].version
    ensures Updates(s, op, key) ==> op.record.version == 0 || op.record.version == s.sessions[key].version
  {
    hide NormalizeEvent, TrimSpace, DefaultID, HasID, CheckSnapshot, CheckSchema;
  }

  /** Updates of a key among operations i to j, and how many of them wrapped the version. */
  function Rises(ops: seq<Op>, i: nat, j: nat, key: string): nat
    requires j <= |ops|
  {
    if j <= i then 0 else Rises(ops, i, j - 1, key) + if Updates(Run(ops[..j - 1]), ops[j - 1], key) then 1 else 0
  }

  predicate Wraps(s: Store, op: Op, key: string) { Updates(s, op, key) && s.sessions[key].version + 1 == TWO_TO_THE_64 }

  function WrapsIn(ops: seq<Op>, i: nat, j: nat, key: string): nat
    requires j <= |ops|
  {
    if j <= i then 0 else WrapsIn(ops, i, j - 1, key) + if Wraps(Run(ops[..j - 1]), ops[j - 1], key) then 1 else 0
  }

  /** Between two moments of a run without deletion the version rises by one an update. */
  lemma {:induction false} VersionsCount(ops: seq<Op>, i: nat, j: nat, key: string)
    requires i <= j <= |ops| && key in Run(ops[..i]).sessions
    requires forall k :: i <= k < j ==> !Deletes(ops[k], key)
    ensures key in Run(ops[..j]).sessions && Rises(ops, i, j, key) <= j - i
    ensures Run(ops[..j]).sessions[key].version + WrapsIn(ops, i, j, key) * TWO_TO_THE_64
      == Run(ops[..i]).sessions[key].version + Rises(ops, i, j, key)
    decreases j
  {
    if i < j {
      hide Apply, Updates, Deletes, Run;
      VersionsCount(ops, i, j - 1, key);
      NextState(ops, j - 1);
      VersionStep(Run(ops[..j - 1]), ops[j - 1], key);
    }
  }

  /** Two updates that present the same non-zero version cannot both succeed, unless
      2^64 operations lie between them and the version has come round again. */
  lemma OneWriterWins(ops: seq<Op>, i: nat, j: nat, key: string)
    requires i < j < |ops| && forall k :: i <= k < j ==> !Deletes(ops[k], key)
    requires Updates(Run(ops[..i]), ops[i], key) && Updates(Run(ops[..j]), ops[j], key)
    requires ops[i].record.version == ops[j].record.version != 0
    ensures j - i >= TWO_TO_THE_64
  {
    hide Apply, Deletes, Run;
    VersionStep(Run(ops[..i]), ops[i], key);
    assert !Deletes(ops[i], key);
    NextState(ops, i);
    VersionsCount(ops, i + 1, j, key);
    UpdatePresents(Run(ops[..j]), ops[j], key);
  }

  lemma NextState(ops: seq<Op>, i: nat)
    requires i < |ops|
    ensures Run(ops[..i + 1]) == Apply(Run(ops[..i]), ops[i])
  {
    assert ops[..i + 1][..i] == ops[..i];
  }

  lemma UpdatePresents(s: Store, op: Op, key: string)
    requires Updates(s, op, key)
    ensures op.record.version == 0 || op.record.version == s.sessions[key].version
  {
    hide TrimSpace, CheckSnapshot, CheckSchema;
  }
}
