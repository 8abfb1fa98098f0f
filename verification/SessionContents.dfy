/** What the session store keeps of the records and events it is given, and what it
    refuses, read off the arguments. */
module SessionContents {
  import opened Prelude
  import opened Core
  import opened Decimal
  import opened SessionStore

  // ----- trimming

  predicate AllSpace(s: string) { forall k :: 0 <= k < |s| ==> IsSpace(s[k]) }

  lemma {:induction false} TrimLeftTakesSpace(s: string) returns (left: string)
    ensures s == left + TrimLeft(s) && AllSpace(left)
  {
    left := "";
    if s != "" && IsSpace(s[0]) {
      var rest := TrimLeftTakesSpace(s[1..]);
      left := [s[0]] + rest;
      assert s == [s[0]] + s[1..];
    }
  }

  lemma {:induction false} TrimRightTakesSpace(s: string) returns (right: string)
    ensures s == TrimRight(s) + right && AllSpace(right)
  {
    right := "";
    if s != "" && IsSpace(s[|s| - 1]) {
      var rest := TrimRightTakesSpace(s[..|s| - 1]);
      right := rest + [s[|s| - 1]];
      assert s == s[..|s| - 1] + [s[|s| - 1]];
    }
  }

  /** Trimming takes white space from both ends and nothing else. */
  lemma TrimSpaceTakesSpace(s: string) returns (left: string, right: string)
    ensures s == left + TrimSpace(s) + right && AllSpace(left) && AllSpace(right) && IsTrimmed(TrimSpace(s))
  {
    left := TrimLeftTakesSpace(s);
    right := TrimRightTakesSpace(TrimLeft(s));
    TrimSpaceTrims(s);
    assert s == left + (TrimSpace(s) + right);
  }

  // ----- saving

  predicate KnownSchema(version: int) { version == 0 || version == 1 }

  predicate RolesValid(messages: seq<Message>) {
    forall k :: 0 <= k < |messages| ==>
      messages[k].role == System || messages[k].role == User || messages[k].role == Assistant || messages[k].role == Tool
  }

  /** Why a record is refused before the store is looked at; the first reason counts. */
  function Refusal(record: Record): Option<SessionError> {
    if TrimSpace(record.id) == "" || record.schemaVersion < 0 then Some(InvalidRecord)
    else if record.schemaVersion > 1 then Some(VersionMismatch)
    else if record.snapshot.schemaVersion < 0 then Some(InvalidRecord)
    else if record.snapshot.schemaVersion > 1 then Some(VersionMismatch)
    else if !RolesValid(record.snapshot.messages) then Some(InvalidRecord)
    else None
  }

  lemma NormalizeKeeps(record: Record)
    ensures NormalizeRecord(record) == match Refusal(record)
      case Some(error) => Err(error)
      case None => Ok(record.(id := TrimSpace(record.id), schemaVersion := 1, snapshot := Snapshot(1, record.snapshot.messages)))
  {
    hide TrimSpace;
  }

  /** What a saved record keeps of the one presented, and of the one it replaces. */
  ghost predicate Keeps(stored: Record, given: Record, before: Option<Record>, now: int) {
    && stored.id == TrimSpace(given.id) && stored.schemaVersion == 1
    && stored.snapshot == Snapshot(1, given.snapshot.messages)
    && stored.metadata == given.metadata && stored.migrationHint == given.migrationHint
    && stored.updatedAt == Some(now)
    && match before
       case None =>
         && stored.version == (if given.version == 0 then 1 else given.version)
         && stored.createdAt == (if given.createdAt == None then Some(now) else given.createdAt)
       case Some(replaced) =>
         && stored.version == (replaced.version + 1) % TWO_TO_THE_64
         && stored.createdAt == (if replaced.createdAt == None then Some(now) else replaced.createdAt)
  }

  function StoredAt(s: Store, id: string): Option<Record> { if id in s.sessions then Some(s.sessions[id]) else None }

  /** A save is refused exactly for a malformed record or a stale version, and then changes
      nothing; otherwise the record is stored with all that was presented, under its id,
      and no other record and no log is touched. */
  lemma SavedAsPresented(s: Store, record: Record, now: int)
    ensures var (s1, r) := Save(s, record, now); var before := StoredAt(s, TrimSpace(record.id));
      if Refusal(record).Some? then s1 == s && r == Err(Refusal(record).value)
      else if before.Some? && record.version != 0 && record.version != before.value.version then s1 == s && r == Err(VersionMismatch)
      else
        && r.Ok? && Keeps(r.value, record, before, now)
        && s1 == Store(s.sessions[TrimSpace(record.id) := r.value], s.events)
  {
    NormalizeKeeps(record);
    hide NormalizeRecord, Refusal, TrimSpace;
    if Refusal(record).None? {
      var before := StoredAt(s, TrimSpace(record.id));
      if before.Some? {
        assert Next(before.value.version) == (before.value.version + 1) % TWO_TO_THE_64;
      }
    }
  }

  // ----- loading and deleting

  /** A sound store loads exactly what it holds under the trimmed id. */
  lemma LoadedIsStored(s: Store, id: string)
    requires Sound(s)
    ensures Load(s, id) ==
      if TrimSpace(id) == "" then Err(InvalidRecord)
      else match StoredAt(s, TrimSpace(id)) case None => Err(NotFound) case Some(record) => Ok(record)
  {
    hide TrimSpace, NormalizeRecord, IsLog;
  }

  /** A deleted session and its log are gone, and no other session or log is touched. */
  lemma DeletedIsGone(s: Store, id: string, other: string)
    ensures var (s1, r) := Delete(s, id); var key := TrimSpace(id);
      if key == "" then s1 == s && r == Some(InvalidRecord)
      else if key !in s.sessions then s1 == s && r == Some(NotFound)
      else
        && r == None && Load(s1, id) == Err(NotFound) && Listing(s1, id, 0) == Ok([])
        && (TrimSpace(other) != key ==>
          && StoredAt(s1, TrimSpace(other)) == StoredAt(s, TrimSpace(other))
          && LogOf(s1, TrimSpace(other)) == LogOf(s, TrimSpace(other)))
  {
    hide TrimSpace, NormalizeRecord;
  }

  // ----- appending

  /** Why an event is refused before the log is looked at. */
  function EventRefusal(event: LogEvent): Option<SessionError> {
    if TrimSpace(event.sessionID) == "" || TrimSpace(event.kind) == "" || event.schemaVersion < 0 then Some(InvalidRecord)
    else if event.schemaVersion > 1 then Some(VersionMismatch)
    else None
  }

  /** The id an event gets in a log of this length. */
  function EventID(event: LogEvent, length: nat): string {
    if TrimSpace(event.id) != "" then TrimSpace(event.id) else TrimSpace(event.sessionID) + ":" + Render(length + 1)
  }

  /** An append is refused exactly for a malformed event, a sequence that is not the next or
      an id already in the log, and then changes nothing; otherwise the event stands at the
      end of its own log with all that was presented, and nothing else is touched. */
  lemma AppendedAsPresented(s: Store, event: LogEvent, now: int)
    ensures var (s1, r) := Append(s, event, now); var log := LogOf(s, TrimSpace(event.sessionID));
      if EventRefusal(event).Some? then s1 == s && r == Err(EventRefusal(event).value)
      else if (event.sequence != 0 && event.sequence != |log| + 1) || exists k :: 0 <= k < |log| && log[k].id == EventID(event, |log|)
      then s1 == s && r == Err(EventConflict)
      else
        && r == Ok(LogEvent(EventID(event, |log|), TrimSpace(event.sessionID), 1, |log| + 1, TrimSpace(event.kind), event.runID,
                            event.metadata, if event.createdAt == None then Some(now) else event.createdAt))
        && s1 == Store(s.sessions, s.events[TrimSpace(event.sessionID) := log + [r.value]])
  {
    hide TrimSpace;
  }
}
