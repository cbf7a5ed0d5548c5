/** The session history store: the persisted cost formula, and the `sessions`
    and `messages` tables with the transactional save, the lookups, the
    cascading delete and the aggregate statistics. */
module SessionStore {
  import opened Common
  import Sorting

  // ---------------------------------------------------------------------------
  // Persisted cost

  /** The unrounded dollar cost at the fixed per-million prices
      100 (input audio), 200 (output audio), 2.5 (input text) and 10 (output text). */
  function ExactCost(u: TokenUsage): real {
    (u.inputAudio as real / 1000000.0) * 100.0 +
    (u.outputAudio as real / 1000000.0) * 200.0 +
    (u.inputText as real / 1000000.0) * 2.5 +
    (u.outputText as real / 1000000.0) * 10.0
  }

  /** Twenty thousand times the exact cost in cents, an integer. */
  function CostNumerator(u: TokenUsage): int {
    200 * u.inputAudio + 400 * u.outputAudio + 5 * u.inputText + 20 * u.outputText
  }

  lemma ExactCostIsNumerator(u: TokenUsage)
    ensures ExactCost(u) * 100.0 == CostNumerator(u) as real / 20000.0
  {
  }

  /** `calculateSessionCost`, in whole cents: `Math.round(total * 100)`. */
  function CalculateSessionCost(u: TokenUsage): int {
    (CostNumerator(u) + 10000) / 20000
  }

  /** The persisted cost is the exact cost rounded to the nearest cent, halves rounded up. */
  lemma CostIsNearestCent(u: TokenUsage)
    ensures var cents := CalculateSessionCost(u) as real;
      cents - 0.5 <= ExactCost(u) * 100.0 < cents + 0.5
  {
    ExactCostIsNumerator(u);
    var n := CostNumerator(u);
    var c := (n + 10000) / 20000;
    assert c * 20000 <= n + 10000 < c * 20000 + 20000;
    assert (c * 20000) as real == c as real * 20000.0;
  }

  /** Usage worth less than half a cent, in particular no usage at all, costs nothing. */
  lemma CostBelowHalfCent(u: TokenUsage)
    requires 0 <= CostNumerator(u) < 10000
    ensures CalculateSessionCost(u) == 0
  {
    BelowOneCent(CostNumerator(u) + 10000);
  }

  lemma BelowOneCent(x: int)
    requires 0 <= x < 20000
    ensures x / 20000 == 0
  {
  }

  /** Raising any counter never lowers the rounded cost. */
  lemma CostMonotone(u: TokenUsage, v: TokenUsage)
    requires UsageLe(u, v)
    ensures CalculateSessionCost(u) <= CalculateSessionCost(v)
  {
    var a, b := CostNumerator(u) + 10000, CostNumerator(v) + 10000;
    assert a <= b;
    var ca, cb := a / 20000, b / 20000;
    assert ca * 20000 <= a && b < cb * 20000 + 20000;
    assert ca * 20000 < (cb + 1) * 20000;
  }

  // ---------------------------------------------------------------------------
  // Tables

  /** A session as the client hands it over: no id, no creation time; the cost in cents. */
  datatype SessionData = SessionData(
    startTime: int, endTime: int, durationSeconds: int, model: string,
    usage: TokenUsage, totalCostCents: int,
    micDevice: Option<string>, speakerDevice: Option<string>)

  /** A message as the client hands it over: no id, no session id. */
  datatype NewMessage = NewMessage(speaker: Speaker, text: string, timestamp: int)

  datatype SessionRow = SessionRow(id: int, data: SessionData, createdAt: int)

  datatype MessageRow = MessageRow(
    id: int, sessionId: int, speaker: Speaker, text: string, timestamp: int, createdAt: int)

  /** The two tables in row order, with the next values of their AUTOINCREMENT counters. */
  datatype Tables = Tables(
    sessions: seq<SessionRow>, messages: seq<MessageRow>,
    nextSessionId: int, nextMessageId: int)

  const EmptyTables := Tables([], [], 1, 1)

  function Ids(rows: seq<SessionRow>): set<int> {
    set r | r in rows :: r.id
  }

  /** The constraints of the schema: positive increasing AUTOINCREMENT keys
      below the counters, and every message pointing at an existing session
      (the foreign key). */
  predicate WellFormed(t: Tables) {
    && t.nextSessionId >= 1 && t.nextMessageId >= 1
    && (forall i :: 0 <= i < |t.sessions| ==> 1 <= t.sessions[i].id < t.nextSessionId)
    && (forall i, j :: 0 <= i < j < |t.sessions| ==> t.sessions[i].id < t.sessions[j].id)
    && (forall k :: 0 <= k < |t.messages| ==> t.messages[k].sessionId in Ids(t.sessions))
    && (forall k :: 0 <= k < |t.messages| ==> 1 <= t.messages[k].id < t.nextMessageId)
  }

  /** `mic_device || null`: an empty label is stored as NULL. */
  function StoredData(d: SessionData): (s: SessionData)
    ensures s.micDevice.Some? <==> Truthy(d.micDevice)
    ensures s.speakerDevice.Some? <==> Truthy(d.speakerDevice)
    ensures s.(micDevice := d.micDevice, speakerDevice := d.speakerDevice) == d
  {
    d.(micDevice := if Truthy(d.micDevice) then d.micDevice else None,
       speakerDevice := if Truthy(d.speakerDevice) then d.speakerDevice else None)
  }

  /** The message rows the save inserts: same order, speaker, text and timestamp,
      tagged with the new session id and consecutive message ids. */
  function Tagged(msgs: seq<NewMessage>, sessionId: int, firstId: int, now: int): (r: seq<MessageRow>)
    ensures |r| == |msgs|
    ensures forall k :: 0 <= k < |r| ==> r[k].sessionId == sessionId && r[k].timestamp == msgs[k].timestamp
  {
    seq(|msgs|, k requires 0 <= k < |msgs| =>
      MessageRow(firstId + k, sessionId, msgs[k].speaker, msgs[k].text, msgs[k].timestamp, now))
  }

  /** The tables after a committed save; `now` is the creation time the schema's default stamps. */
  function Saved(t: Tables, d: SessionData, msgs: seq<NewMessage>, now: int): Tables {
    var id := t.nextSessionId;
    Tables(t.sessions + [SessionRow(id, StoredData(d), now)],
           t.messages + Tagged(msgs, id, t.nextMessageId, now),
           id + 1, t.nextMessageId + |msgs|)
  }

  lemma SavedWellFormed(t: Tables, d: SessionData, msgs: seq<NewMessage>, now: int)
    requires WellFormed(t)
    ensures WellFormed(Saved(t, d, msgs, now))
  {
    SavedSessionsOrdered(t, d, msgs, now);
    SavedMessagesOwned(t, d, msgs, now);
  }

  /** The new session row takes the next key, above every existing one. */
  lemma SavedSessionsOrdered(t: Tables, d: SessionData, msgs: seq<NewMessage>, now: int)
    requires WellFormed(t)
    ensures var t' := Saved(t, d, msgs, now);
      && (forall i :: 0 <= i < |t'.sessions| ==> 1 <= t'.sessions[i].id < t'.nextSessionId)
      && (forall i, j :: 0 <= i < j < |t'.sessions| ==> t'.sessions[i].id < t'.sessions[j].id)
  {
    var ns := Saved(t, d, msgs, now).sessions;
    assert forall i :: 0 <= i < |t.sessions| ==> ns[i] == t.sessions[i];
  }

  /** Every message row, old or new, points at a session that exists and has a key below the counter. */
  lemma SavedMessagesOwned(t: Tables, d: SessionData, msgs: seq<NewMessage>, now: int)
    requires WellFormed(t)
    ensures var t' := Saved(t, d, msgs, now);
      && (forall k :: 0 <= k < |t'.messages| ==> t'.messages[k].sessionId in Ids(t'.sessions))
      && (forall k :: 0 <= k < |t'.messages| ==> 1 <= t'.messages[k].id < t'.nextMessageId)
  {
    var t' := Saved(t, d, msgs, now);
    var added := Tagged(msgs, t.nextSessionId, t.nextMessageId, now);
    assert Ids(t'.sessions) == Ids(t.sessions) + {t.nextSessionId};
    forall k | 0 <= k < |t'.messages|
      ensures t'.messages[k].sessionId in Ids(t'.sessions)
      ensures 1 <= t'.messages[k].id < t'.nextMessageId
    {
      if k < |t.messages| {
        assert t'.messages[k] == t.messages[k];
      } else {
        assert t'.messages[k] == added[k - |t.messages|];
      }
    }
  }

  // ---------------------------------------------------------------------------
  // Lookups

  /** The first session row with the given id. */
  function FindSession(rows: seq<SessionRow>, id: int): (r: Option<SessionRow>)
    ensures r.None? <==> id !in Ids(rows)
    ensures r.Some? ==> r.value in rows && r.value.id == id
  {
    if rows == [] then None
    else if rows[0].id == id then Some(rows[0])
    else
      assert Ids(rows) == {rows[0].id} + Ids(rows[1..]) by {
        assert rows == [rows[0]] + rows[1..];
      }
      FindSession(rows[1..], id)
  }

  /** `SELECT * FROM messages WHERE session_id = ?` in row order. */
  function MessagesOf(ms: seq<MessageRow>, id: int): (r: seq<MessageRow>)
    ensures forall m :: m in r <==> m in ms && m.sessionId == id
  {
    if ms == [] then []
    else (if ms[0].sessionId == id then [ms[0]] else []) + MessagesOf(ms[1..], id)
  }

  lemma {:induction false} MessagesOfAppend(a: seq<MessageRow>, b: seq<MessageRow>, id: int)
    ensures MessagesOf(a + b, id) == MessagesOf(a, id) + MessagesOf(b, id)
  {
    if a == [] {
      assert a + b == b;
    } else {
      assert (a + b)[0] == a[0];
      assert (a + b)[1..] == a[1..] + b;
      MessagesOfAppend(a[1..], b, id);
    }
  }

  function Timestamp(m: MessageRow): int { m.timestamp }

  function NegCreatedAt(r: SessionRow): int { -r.createdAt }

  /** `getSessionWithMessages`: nothing when no session has the id, else the
      session and its messages ordered by timestamp. */
  function GetSessionWithMessages(t: Tables, id: int): (r: Option<(SessionRow, seq<MessageRow>)>)
    ensures r.None? <==> id !in Ids(t.sessions)
    ensures r.Some? ==> r.value.0 in t.sessions && r.value.0.id == id
    ensures r.Some? ==> Sorting.SortedBy(r.value.1, Timestamp)
    ensures r.Some? ==> multiset(r.value.1) == multiset(MessagesOf(t.messages, id))
  {
    match FindSession(t.sessions, id)
    case None => None
    case Some(s) => Some((s, Sorting.Sort(MessagesOf(t.messages, id), Timestamp)))
  }

  /** `getAllSessions`: every session, most recently created first. */
  function GetAllSessions(t: Tables): (r: seq<SessionRow>)
    ensures multiset(r) == multiset(t.sessions)
    ensures forall i, j :: 0 <= i < j < |r| ==> r[i].createdAt >= r[j].createdAt
  {
    var r := Sorting.Sort(t.sessions, NegCreatedAt);
    assert forall i, j :: 0 <= i < j < |r| ==> NegCreatedAt(r[i]) <= NegCreatedAt(r[j]);
    r
  }

  /** A committed save is read back exactly: the new session, and its messages
      in the order given when their timestamps do not decrease. */
  lemma SavedSessionReadsBack(t: Tables, d: SessionData, msgs: seq<NewMessage>, now: int)
    requires WellFormed(t)
    requires forall i, j :: 0 <= i < j < |msgs| ==> msgs[i].timestamp <= msgs[j].timestamp
    ensures GetSessionWithMessages(Saved(t, d, msgs, now), t.nextSessionId)
         == Some((SessionRow(t.nextSessionId, StoredData(d), now),
                  Tagged(msgs, t.nextSessionId, t.nextMessageId, now)))
  {
    var id := t.nextSessionId;
    var row := SessionRow(id, StoredData(d), now);
    var t' := Saved(t, d, msgs, now);
    FreshIdUnused(t);
    FindAfterAppend(t.sessions, row, id);
    assert FindSession(t'.sessions, id) == Some(row);
    var tagged := Tagged(msgs, id, t.nextMessageId, now);
    MessagesOfAppend(t.messages, tagged, id);
    NoMessagesOfFreshId(t);
    MessagesOfAll(tagged, id);
    assert MessagesOf(t'.messages, id) == tagged;
    forall i, j | 0 <= i < j < |tagged|
      ensures Timestamp(tagged[i]) <= Timestamp(tagged[j])
    {
      assert tagged[i].timestamp == msgs[i].timestamp && tagged[j].timestamp == msgs[j].timestamp;
    }
    Sorting.SortOfSorted(tagged, Timestamp);
  }

  lemma FreshIdUnused(t: Tables)
    requires WellFormed(t)
    ensures t.nextSessionId !in Ids(t.sessions)
  {
    forall row | row in t.sessions
      ensures row.id != t.nextSessionId
    {
      var i :| 0 <= i < |t.sessions| && t.sessions[i] == row;
    }
  }

  lemma FindAfterAppend(rows: seq<SessionRow>, row: SessionRow, id: int)
    requires id == row.id && id !in Ids(rows)
    ensures FindSession(rows + [row], id) == Some(row)
  {
    if rows != [] {
      assert (rows + [row])[1..] == rows[1..] + [row];
      assert Ids(rows) == {rows[0].id} + Ids(rows[1..]) by {
        assert rows == [rows[0]] + rows[1..];
      }
      FindAfterAppend(rows[1..], row, id);
    }
  }

  lemma NoMessagesOfFreshId(t: Tables)
    requires WellFormed(t)
    ensures MessagesOf(t.messages, t.nextSessionId) == []
  {
    forall k | 0 <= k < |t.messages|
      ensures t.messages[k].sessionId != t.nextSessionId
    {
      var x := t.messages[k].sessionId;
      var row :| row in t.sessions && row.id == x;
      var i :| 0 <= i < |t.sessions| && t.sessions[i] == row;
    }
    MessagesOfNone(t.messages, t.nextSessionId);
  }

  lemma {:induction false} MessagesOfAll(ms: seq<MessageRow>, id: int)
    requires forall k :: 0 <= k < |ms| ==> ms[k].sessionId == id
    ensures MessagesOf(ms, id) == ms
  {
    if ms != [] {
      MessagesOfAll(ms[1..], id);
      assert ms == [ms[0]] + ms[1..];
    }
  }

  lemma {:induction false} MessagesOfNone(ms: seq<MessageRow>, id: int)
    requires forall k :: 0 <= k < |ms| ==> ms[k].sessionId != id
    ensures MessagesOf(ms, id) == []
  {
    if ms != [] {
      MessagesOfNone(ms[1..], id);
    }
  }

  /** A save does not change what any other id looks up to. */
  lemma SaveLeavesOtherSessions(t: Tables, d: SessionData, msgs: seq<NewMessage>, now: int, other: int)
    requires WellFormed(t) && other != t.nextSessionId
    ensures GetSessionWithMessages(Saved(t, d, msgs, now), other) == GetSessionWithMessages(t, other)
  {
    var id := t.nextSessionId;
    var row := SessionRow(id, StoredData(d), now);
    FindUnaffected(t.sessions, [row], other);
    var tagged := Tagged(msgs, id, t.nextMessageId, now);
    MessagesOfAppend(t.messages, tagged, other);
    MessagesOfNone(tagged, other);
    assert t.messages + tagged == Saved(t, d, msgs, now).messages;
    assert MessagesOf(t.messages + tagged, other) == MessagesOf(t.messages, other);
  }

  lemma FindUnaffected(rows: seq<SessionRow>, extra: seq<SessionRow>, id: int)
    requires forall r :: r in extra ==> r.id != id
    ensures FindSession(rows + extra, id) == FindSession(rows, id)
  {
    if rows == [] {
      assert rows + extra == extra;
      FindMissing(extra, id);
    } else {
      assert (rows + extra)[1..] == rows[1..] + extra;
      FindUnaffected(rows[1..], extra, id);
    }
  }

  lemma FindMissing(rows: seq<SessionRow>, id: int)
    requires forall r :: r in rows ==> r.id != id
    ensures FindSession(rows, id) == None
  {
  }

  // ---------------------------------------------------------------------------
  // Delete

  function RemoveSession(rows: seq<SessionRow>, id: int): (r: seq<SessionRow>)
    ensures forall x :: x in r <==> x in rows && x.id != id
    ensures Ids(r) == Ids(rows) - {id}
  {
    if rows == [] then []
    else
      assert rows == [rows[0]] + rows[1..];
      var rest := RemoveSession(rows[1..], id);
      if rows[0].id == id then rest else [rows[0]] + rest
  }

  predicate IdsIncreasing(rows: seq<SessionRow>) {
    forall i, j :: 0 <= i < j < |rows| ==> rows[i].id < rows[j].id
  }

  /** Removing a row keeps the remaining keys in increasing order. */
  lemma {:induction false} RemoveSessionOrdered(rows: seq<SessionRow>, id: int)
    requires IdsIncreasing(rows)
    ensures IdsIncreasing(RemoveSession(rows, id))
    decreases |rows|
  {
    if rows != [] {
      RemoveSessionOrdered(rows[1..], id);
      if rows[0].id != id {
        FirstBelowRest(rows);
        ConsIncreasing(rows[0], RemoveSession(rows[1..], id));
      }
    }
  }

  lemma FirstBelowRest(rows: seq<SessionRow>)
    requires IdsIncreasing(rows) && rows != []
    ensures IdsIncreasing(rows[1..])
    ensures forall x :: x in rows[1..] ==> rows[0].id < x.id
  {
    forall x | x in rows[1..]
      ensures rows[0].id < x.id
    {
      var m :| 0 <= m < |rows[1..]| && rows[1..][m] == x;
      assert rows[m + 1] == x;
    }
  }

  lemma ConsIncreasing(a: SessionRow, rest: seq<SessionRow>)
    requires IdsIncreasing(rest) && forall x :: x in rest ==> a.id < x.id
    ensures IdsIncreasing([a] + rest)
  {
    var r := [a] + rest;
    forall i, j | 0 <= i < j < |r|
      ensures r[i].id < r[j].id
    {
      assert r[j] == rest[j - 1];
      if i > 0 {
        assert r[i] == rest[i - 1];
      } else {
        assert rest[j - 1] in rest;
      }
    }
  }

  function RemoveMessagesOf(ms: seq<MessageRow>, id: int): (r: seq<MessageRow>)
    ensures forall m :: m in r <==> m in ms && m.sessionId != id
  {
    if ms == [] then []
    else (if ms[0].sessionId == id then [] else [ms[0]]) + RemoveMessagesOf(ms[1..], id)
  }

  /** `DELETE FROM sessions WHERE id = ?`, with `ON DELETE CASCADE` on the messages. */
  function Deleted(t: Tables, id: int): Tables {
    t.(sessions := RemoveSession(t.sessions, id), messages := RemoveMessagesOf(t.messages, id))
  }

  lemma DeletedWellFormed(t: Tables, id: int)
    requires WellFormed(t)
    ensures WellFormed(Deleted(t, id))
  {
    var t' := Deleted(t, id);
    RemoveSessionOrdered(t.sessions, id);
    forall i | 0 <= i < |t'.sessions|
      ensures 1 <= t'.sessions[i].id < t'.nextSessionId
    {
      assert t'.sessions[i] in t.sessions;
    }
    forall k | 0 <= k < |t'.messages|
      ensures t'.messages[k].sessionId in Ids(t'.sessions)
      ensures 1 <= t'.messages[k].id < t'.nextMessageId
    {
      assert t'.messages[k] in t.messages;
    }
  }

  /** After a delete the id looks up to nothing, no message of it is left, and
      every other id looks up as before. */
  lemma DeleteRemovesSession(t: Tables, id: int, other: int)
    requires other != id
    ensures GetSessionWithMessages(Deleted(t, id), id).None?
    ensures forall m :: m in Deleted(t, id).messages ==> m.sessionId != id
    ensures GetSessionWithMessages(Deleted(t, id), other) == GetSessionWithMessages(t, other)
  {
    FindAfterRemove(t.sessions, id, other);
    MessagesOfAfterRemove(t.messages, id, other);
  }

  lemma {:induction false} FindAfterRemove(rows: seq<SessionRow>, id: int, other: int)
    requires other != id
    ensures FindSession(RemoveSession(rows, id), other) == FindSession(rows, other)
  {
    if rows != [] {
      FindAfterRemove(rows[1..], id, other);
    }
  }

  lemma {:induction false} MessagesOfAfterRemove(ms: seq<MessageRow>, id: int, other: int)
    requires other != id
    ensures MessagesOf(RemoveMessagesOf(ms, id), other) == MessagesOf(ms, other)
  {
    if ms != [] {
      var h := ms[0];
      var rest := RemoveMessagesOf(ms[1..], id);
      MessagesOfAfterRemove(ms[1..], id, other);
      assert MessagesOf(ms, other) == (if h.sessionId == other then [h] else []) + MessagesOf(ms[1..], other);
      if h.sessionId == id {
        assert RemoveMessagesOf(ms, id) == [] + rest == rest;
        assert MessagesOf(ms, other) == MessagesOf(ms[1..], other);
      } else {
        var removed := RemoveMessagesOf(ms, id);
        assert removed == [h] + rest;
        assert removed[0] == h && removed[1..] == rest;
        assert MessagesOf(removed, other) == (if h.sessionId == other then [h] else []) + MessagesOf(rest, other);
      }
    }
  }

  // ---------------------------------------------------------------------------
  // Statistics

  function SumDurations(rows: seq<SessionRow>): int {
    if rows == [] then 0 else rows[0].data.durationSeconds + SumDurations(rows[1..])
  }

  function SumCosts(rows: seq<SessionRow>): int {
    if rows == [] then 0 else rows[0].data.totalCostCents + SumCosts(rows[1..])
  }

  lemma {:induction false} SumsAppend(a: seq<SessionRow>, b: seq<SessionRow>)
    ensures SumDurations(a + b) == SumDurations(a) + SumDurations(b)
    ensures SumCosts(a + b) == SumCosts(a) + SumCosts(b)
  {
    if a == [] {
      assert a + b == b;
    } else {
      assert (a + b)[0] == a[0];
      assert (a + b)[1..] == a[1..] + b;
      SumsAppend(a[1..], b);
    }
  }

  /** One row of the aggregate query; SQL's SUM and AVG over no rows are NULL (`None`). */
  datatype Stats = Stats(
    totalSessions: nat, totalDuration: Option<int>, totalCostCents: Option<int>,
    averageDuration: Option<real>, totalMessages: nat)

  /** `getSessionStats`. */
  function GetSessionStats(t: Tables): (s: Stats)
    ensures s.totalSessions == |t.sessions| && s.totalMessages == |t.messages|
    ensures s.totalDuration.None? <==> t.sessions == []
    ensures s.totalCostCents.None? <==> t.sessions == []
    ensures s.averageDuration.None? <==> t.sessions == []
  {
    if t.sessions == [] then Stats(0, None, None, None, |t.messages|)
    else
      Stats(|t.sessions|, Some(SumDurations(t.sessions)), Some(SumCosts(t.sessions)),
            Some(SumDurations(t.sessions) as real / |t.sessions| as real), |t.messages|)
  }

  /** A save adds one session, its messages, its duration and its cost to the statistics. */
  lemma SaveUpdatesStats(t: Tables, d: SessionData, msgs: seq<NewMessage>, now: int)
    ensures var before, after := GetSessionStats(t), GetSessionStats(Saved(t, d, msgs, now));
      && after.totalSessions == before.totalSessions + 1
      && after.totalMessages == before.totalMessages + |msgs|
      && after.totalDuration == Some(SumDurations(t.sessions) + d.durationSeconds)
      && after.totalCostCents == Some(SumCosts(t.sessions) + d.totalCostCents)
  {
    var row := SessionRow(t.nextSessionId, StoredData(d), now);
    SumsAppend(t.sessions, [row]);
    assert SumDurations([row]) == d.durationSeconds;
  }

  // ---------------------------------------------------------------------------
  // The database, updated in place

  /** Where a save can fail: the session insert, the missing `lastInsertId`,
      the insert of message number `index`, or the commit. */
  datatype Fault = NoFault | SessionInsertFails | NoLastInsertId | MessageInsertFails(index: nat) | CommitFails

  predicate Completes(f: Fault, count: nat) {
    f.NoFault? || (f.MessageInsertFails? && f.index >= count)
  }

  class SessionDb {
    var sessions: seq<SessionRow>
    var messages: seq<MessageRow>
    var nextSessionId: int
    var nextMessageId: int

    function Snapshot(): Tables
      reads this
    {
      Tables(sessions, messages, nextSessionId, nextMessageId)
    }

    ghost predicate Valid()
      reads this
    {
      WellFormed(Snapshot())
    }

    constructor ()
      ensures Valid() && Snapshot() == EmptyTables
    {
      sessions, messages, nextSessionId, nextMessageId := [], [], 1, 1;
    }

    /** `saveSession`: BEGIN, insert the session, check its id, insert every
        message in order, COMMIT; on any failure ROLLBACK and rethrow. */
    method SaveSession(d: SessionData, msgs: seq<NewMessage>, now: int, fault: Fault)
      returns (r: Result<int>)
      requires Valid()
      modifies this
      ensures Valid()
      ensures r.Ok? <==> Completes(fault, |msgs|)
      ensures r.Ok? ==> r.value == old(nextSessionId) && Snapshot() == Saved(old(Snapshot()), d, msgs, now)
      ensures r.Err? ==> Snapshot() == old(Snapshot())
      ensures fault.NoLastInsertId? ==> r == Err("Failed to get session ID")
    {
      // BEGIN TRANSACTION
      var before := Snapshot();
      if fault.SessionInsertFails? {
        r := Err("database error");
        return;
      }
      var id := nextSessionId;
      sessions := sessions + [SessionRow(id, StoredData(d), now)];
      nextSessionId := id + 1;
      var lastInsertId := if fault.NoLastInsertId? then 0 else id;
      if lastInsertId == 0 {
        Rollback(before);
        r := Err("Failed to get session ID");
        return;
      }
      var firstMessageId := nextMessageId;
      var i := 0;
      while i < |msgs|
        invariant 0 <= i <= |msgs|
        invariant sessions == before.sessions + [SessionRow(id, StoredData(d), now)]
        invariant nextSessionId == id + 1
        invariant messages == before.messages + Tagged(msgs[..i], id, firstMessageId, now)
        invariant nextMessageId == firstMessageId + i
        invariant fault.MessageInsertFails? ==> fault.index >= i
      {
        if fault == MessageInsertFails(i) {
          Rollback(before);
          r := Err("database error");
          return;
        }
        assert Tagged(msgs[..i + 1], id, firstMessageId, now)
            == Tagged(msgs[..i], id, firstMessageId, now) + [MessageRow(firstMessageId + i, id, msgs[i].speaker, msgs[i].text, msgs[i].timestamp, now)];
        messages := messages + [MessageRow(nextMessageId, id, msgs[i].speaker, msgs[i].text, msgs[i].timestamp, now)];
        nextMessageId := nextMessageId + 1;
        i := i + 1;
      }
      assert msgs[..i] == msgs;
      if fault.CommitFails? {
        Rollback(before);
        r := Err("database error");
        return;
      }
      SavedWellFormed(before, d, msgs, now);
      r := Ok(id);
    }

    method Rollback(t: Tables)
      modifies this
      ensures Snapshot() == t
    {
      sessions, messages, nextSessionId, nextMessageId := t.sessions, t.messages, t.nextSessionId, t.nextMessageId;
    }

    /** `deleteSession`: the session and, through the cascade, its messages. */
    method DeleteSession(id: int)
      requires Valid()
      modifies this
      ensures Valid()
      ensures Snapshot() == Deleted(old(Snapshot()), id)
    {
      DeletedWellFormed(Snapshot(), id);
      sessions := RemoveSession(sessions, id);
      messages := RemoveMessagesOf(messages, id);
    }
  }
}
