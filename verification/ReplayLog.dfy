/**
 The replay log of an MCP session. The store numbers an event from the rows it
 still has and keeps only the newest hundred; it is proved to answer every
 request as a store that keeps each session's whole history would.
 */
module ReplayLog {
  import opened Prelude

  const RETAINED: nat := 100
  const MAX_INT64: nat := 0x7fff_ffff_ffff_ffff

  type Payload = seq<bv8>

  datatype Session = Session(subject: string, closed: bool, lastSeen: int)

  datatype Row = Row(event: string, payload: Payload)

  type Rows = map<(string, nat), Row>

  datatype Op =
    | Create(id: string, subject: string, now: int)
    | Touch(id: string, subject: string, now: int, cutoff: int)
    | Close(id: string)
    | Append(id: string, payload: Payload)
    | DeleteExpired(cutoff: int)
    | List(id: string, lastEvent: string, limit: nat)

  datatype Reply = Done | Hit(found: bool) | Failed | Appended(event: string) | Deleted(count: nat) | Listed(events: seq<Row>)

  type Sessions = map<string, Session>

  // ---- the sessions table ----

  function Created(ss: Sessions, id: string, subject: string, now: int): Sessions {
    ss[id := Session(subject, false, now)]
  }

  predicate Touches(ss: Sessions, id: string, subject: string, cutoff: int) {
    id in ss && ss[id].subject == subject && !ss[id].closed && ss[id].lastSeen >= cutoff
  }

  predicate IsOpen(ss: Sessions, id: string) {
    id in ss && !ss[id].closed
  }

  function Expired(ss: Sessions, cutoff: int): set<string> {
    set id | id in ss && (ss[id].lastSeen < cutoff || ss[id].closed)
  }

  // ---- the events table ----

  function EventId(session: string, number: nat): string {
    session + "-" + Text(number)
  }

  function Numbers(rows: Rows, session: string): set<nat> {
    set k | k in rows && k.0 == session :: k.1
  }

  function Beyond(rows: Rows, session: string, after: nat): set<nat> {
    set n | n in Numbers(rows, session) && n > after
  }

  /** Drops the rows of a session that are not among its newest. */
  function Trimmed(rows: Rows, session: string): Rows {
    map k | k in rows && (k.0 == session ==> |Beyond(rows, session, k.1)| < RETAINED) :: rows[k]
  }

  function WithEvent(rows: Rows, session: string, payload: Payload): Rows {
    var number := MaxOf(Numbers(rows, session)) + 1;
    Trimmed(rows[(session, number) := Row(EventId(session, number), payload)], session)
  }

  /** The number of the row a client saw last: from the start without one, past every row for an unknown one. */
  function ResumeAt(rows: Rows, session: string, lastEvent: string): nat {
    if lastEvent == "" then 0
    else
      var matching := set n | n in Numbers(rows, session) && rows[(session, n)].event == lastEvent;
      if matching == {} then MAX_INT64 else MinOf(matching)
  }

  /** The rows of a session after a number, in order, up to a limit. */
  function Following(rows: Rows, session: string, after: nat, limit: nat): seq<Row>
    decreases limit
  {
    var rest := Beyond(rows, session, after);
    if limit == 0 || rest == {} then []
    else [rows[(session, MinOf(rest))]] + Following(rows, session, MinOf(rest), limit - 1)
  }

  // ---- the trimmed store ----

  datatype Store = Store(sessions: Sessions, rows: Rows)

  function Handle(s: Store, op: Op): (Store, Reply) {
    match op
    case Create(id, subject, now) => (s.(sessions := Created(s.sessions, id, subject, now)), Done)
    case Touch(id, subject, now, cutoff) =>
      if Touches(s.sessions, id, subject, cutoff) then (s.(sessions := s.sessions[id := s.sessions[id].(lastSeen := now)]), Hit(true))
      else (s, Hit(false))
    case Close(id) =>
      if IsOpen(s.sessions, id) then (s.(sessions := s.sessions[id := s.sessions[id].(closed := true)]), Hit(true))
      else (s, Hit(false))
    case Append(id, payload) =>
      var last := MaxOf(Numbers(s.rows, id));
      if !IsOpen(s.sessions, id) || last >= MAX_INT64 then (s, Failed)
      else (s.(rows := WithEvent(s.rows, id, payload)), Appended(EventId(id, last + 1)))
    case DeleteExpired(cutoff) =>
      var gone := Expired(s.sessions, cutoff);
      (Store(s.sessions - gone, map k | k in s.rows && k.0 !in gone :: s.rows[k]), Deleted(|gone|))
    case List(id, lastEvent, limit) =>
      (s, Listed(Following(s.rows, id, ResumeAt(s.rows, id, lastEvent), limit)))
  }

  class MCPSessionStore {
    var sessions: Sessions
    var rows: Rows

    function Snapshot(): Store
      reads this
    {
      Store(sessions, rows)
    }

    constructor ()
      ensures Snapshot() == Store(map[], map[])
    {
      sessions, rows := map[], map[];
    }

    method CreateMCPSession(id: string, subject: string, now: int)
      modifies this`sessions
      ensures (Snapshot(), Done) == Handle(old(Snapshot()), Create(id, subject, now))
    {
      if id in sessions {
        sessions := sessions[id := sessions[id].(subject := subject, closed := false, lastSeen := now)];
      } else {
        sessions := sessions[id := Session(subject, false, now)];
      }
    }

    method TouchMCPSession(id: string, subject: string, now: int, cutoff: int) returns (found: bool)
      modifies this`sessions
      ensures (Snapshot(), Hit(found)) == Handle(old(Snapshot()), Touch(id, subject, now, cutoff))
    {
      found := id in sessions && sessions[id].subject == subject && !sessions[id].closed && sessions[id].lastSeen >= cutoff;
      if found {
        sessions := sessions[id := sessions[id].(lastSeen := now)];
      }
    }

    method CloseMCPSession(id: string) returns (found: bool)
      modifies this`sessions
      ensures (Snapshot(), Hit(found)) == Handle(old(Snapshot()), Close(id))
    {
      found := id in sessions && !sessions[id].closed;
      if found {
        sessions := sessions[id := sessions[id].(closed := true)];
      }
    }

    /** Numbers the event after the newest row, inserts it, and trims the session's rows. */
    method AppendMCPEvent(id: string, payload: Payload) returns (event: Option<string>)
      modifies this`rows
      ensures (Snapshot(), if event.Some? then Appended(event.value) else Failed) == Handle(old(Snapshot()), Append(id, payload))
    {
      if id !in sessions || sessions[id].closed {
        return None;
      }
      var last := MaxOf(Numbers(rows, id));
      if last >= MAX_INT64 {
        return None;
      }
      var number := last + 1;
      rows := rows[(id, number) := Row(EventId(id, number), payload)];
      rows := Trimmed(rows, id);
      event := Some(EventId(id, number));
    }

    method DeleteExpiredMCPSessions(cutoff: int) returns (count: nat)
      modifies this
      ensures (Snapshot(), Deleted(count)) == Handle(old(Snapshot()), Op.DeleteExpired(cutoff))
    {
      var gone := Expired(sessions, cutoff);
      rows := map k | k in rows && k.0 !in gone :: rows[k];
      sessions := sessions - gone;
      count := |gone|;
    }

    /** Collects the rows after the one the client saw last, in order. */
    method ListMCPEvents(id: string, lastEvent: string, limit: nat) returns (events: seq<Row>)
      ensures Handle(Snapshot(), List(id, lastEvent, limit)) == (Snapshot(), Listed(events))
    {
      var after := ResumeAt(rows, id, lastEvent);
      ghost var first := after;
      var rest := Beyond(rows, id, after);
      events := [];
      while rest != {} && |events| < limit
        invariant rest == Beyond(rows, id, after)
        invariant |events| <= limit
        invariant Following(rows, id, first, limit) == events + Following(rows, id, after, limit - |events|)
        decreases limit - |events|
      {
        var next := MinOf(rest);
        assert events + ([rows[(id, next)]] + Following(rows, id, next, limit - |events| - 1))
            == (events + [rows[(id, next)]]) + Following(rows, id, next, limit - |events| - 1);
        assert Following(rows, id, after, limit - |events|) == [rows[(id, next)]] + Following(rows, id, next, limit - |events| - 1);
        events := events + [rows[(id, next)]];
        assert rest - {next} == Beyond(rows, id, next);
        rest := rest - {next};
        after := next;
      }
      assert Following(rows, id, after, limit - |events|) == [] && events + [] == events;
    }
  }

  // ---- the store that keeps everything ----

  datatype Full = Full(sessions: Sessions, logs: map<string, seq<Payload>>)

  function Log(f: Full, id: string): seq<Payload> {
    if id in f.logs then f.logs[id] else []
  }

  /** The n-th event of a session, as the client is to name it. */
  function Named(id: string, n: nat): string {
    id + "-" + Text(n)
  }

  /** The first number still on offer after n events, less one. */
  function Floor(n: nat): nat {
    if n > 100 then n - 100 else 0
  }

  function AtMost(m: nat, n: nat): nat {
    if m < n then m else n
  }

  /** Events from+1 .. to of a history. */
  function Events(id: string, log: seq<Payload>, from: nat, to: nat): seq<Row>
    requires from <= to <= |log|
  {
    seq(to - from, i requires 0 <= i < to - from => Row(Named(id, from + i + 1), log[from + i]))
  }

  /** The next events after the one named, provided it is one of the newest hundred; all of those without a name. */
  ghost function ListFrom(id: string, log: seq<Payload>, lastEvent: string, limit: nat): seq<Row> {
    var n := |log|;
    if lastEvent == "" then Events(id, log, Floor(n), AtMost(Floor(n) + limit, n))
    else if exists q: nat :: Floor(n) < q <= n && Named(id, q) == lastEvent then
      var q: nat :| Floor(n) < q <= n && Named(id, q) == lastEvent;
      Events(id, log, q, AtMost(q + limit, n))
    else []
  }

  ghost function HandleFull(f: Full, op: Op): (Full, Reply) {
    match op
    case Create(id, subject, now) => (Full(f.sessions[id := Session(subject, false, now)], f.logs[id := Log(f, id)]), Done)
    case Touch(id, subject, now, cutoff) =>
      if id in f.sessions && f.sessions[id].subject == subject && !f.sessions[id].closed && f.sessions[id].lastSeen >= cutoff then
        (f.(sessions := f.sessions[id := Session(subject, false, now)]), Hit(true))
      else (f, Hit(false))
    case Close(id) =>
      if id in f.sessions && !f.sessions[id].closed then (f.(sessions := f.sessions[id := f.sessions[id].(closed := true)]), Hit(true))
      else (f, Hit(false))
    case Append(id, payload) =>
      if id !in f.sessions || f.sessions[id].closed || |Log(f, id)| >= 0x7fff_ffff_ffff_ffff then (f, Failed)
      else (f.(logs := f.logs[id := Log(f, id) + [payload]]), Appended(Named(id, |Log(f, id)| + 1)))
    case DeleteExpired(cutoff) =>
      var gone := set id | id in f.sessions && (f.sessions[id].closed || f.sessions[id].lastSeen < cutoff);
      (Full(f.sessions - gone, f.logs - gone), Deleted(|gone|))
    case List(id, lastEvent, limit) =>
      (f, Listed(ListFrom(id, Log(f, id), lastEvent, limit)))
  }

  // ---- the refinement ----

  /** The rows of a session are exactly the newest hundred of its history, each under its own number. */
  ghost predicate Agrees(rows: Rows, id: string, log: seq<Payload>) {
    && |log| <= MAX_INT64
    && (forall n: nat :: (id, n) in rows <==> Floor(|log|) < n <= |log|)
    && (forall n: nat :: Floor(|log|) < n <= |log| ==> rows[(id, n)] == Row(Named(id, n), log[n - 1]))
  }

  ghost predicate Matches(s: Store, f: Full) {
    s.sessions == f.sessions && forall id :: Agrees(s.rows, id, Log(f, id))
  }

  lemma {:induction false} IntervalSize(s: set<nat>, low: nat, high: nat)
    requires low <= high && forall n :: n in s <==> low < n <= high
    ensures |s| == high - low
    decreases high
  {
    if low < high {
      IntervalSize(s - {high}, low, high - 1);
    } else {
      assert s == {};
    }
  }

  lemma NewestIsLength(rows: Rows, id: string, log: seq<Payload>)
    requires Agrees(rows, id, log)
    ensures MaxOf(Numbers(rows, id)) == |log|
  {
    var ns := Numbers(rows, id);
    if log == [] {
      assert ns == {};
      assert ns != {} ==> MaxOf(ns) in ns;
    } else {
      assert (id, |log|) in rows;
      assert |log| in ns;
    }
  }

  /** What the trim keeps of the numbers low+1 .. high. */
  lemma TrimKeepsNewest(rows: Rows, id: string, low: nat, high: nat)
    requires low <= high <= low + RETAINED + 1 && forall n: nat :: (id, n) in rows <==> low < n <= high
    ensures forall n: nat :: (id, n) in Trimmed(rows, id) <==> low < n <= high && high - n < RETAINED
    ensures forall k <- Trimmed(rows, id) :: k in rows && Trimmed(rows, id)[k] == rows[k]
    ensures forall k <- rows :: k.0 != id ==> k in Trimmed(rows, id)
  {
    forall n: nat | low < n <= high ensures |Beyond(rows, id, n)| == high - n {
      var newer := Beyond(rows, id, n);
      forall m: nat ensures m in newer <==> n < m <= high {
        if n < m <= high { assert (id, m) in rows; }
      }
      IntervalSize(newer, n, high);
    }
  }

  lemma AppendAgrees(rows: Rows, id: string, log: seq<Payload>, payload: Payload)
    requires Agrees(rows, id, log) && |log| < MAX_INT64
    ensures Agrees(WithEvent(rows, id, payload), id, log + [payload])
    ensures forall other, n: nat :: other != id ==>
      && ((other, n) in WithEvent(rows, id, payload) <==> (other, n) in rows)
      && ((other, n) in rows ==> WithEvent(rows, id, payload)[(other, n)] == rows[(other, n)])
  {
    NewestIsLength(rows, id, log);
    var number := |log| + 1;
    var inserted := rows[(id, number) := Row(Named(id, number), payload)];
    TrimKeepsNewest(inserted, id, Floor(|log|), number);
    var after := WithEvent(rows, id, payload);
    assert after == Trimmed(inserted, id);
    forall n: nat | Floor(number) < n <= number ensures after[(id, n)] == Row(Named(id, n), (log + [payload])[n - 1]) {
      assert (id, n) in after;
    }
  }

  lemma NamedInjective(id: string, m: nat, n: nat)
    requires Named(id, m) == Named(id, n)
    ensures m == n
  {
    assert Named(id, m)[|id| + 1..] == Text(m) && Named(id, n)[|id| + 1..] == Text(n);
    TextInjective(m, n);
  }

  lemma BeyondIsInterval(rows: Rows, id: string, log: seq<Payload>, after: nat)
    requires Agrees(rows, id, log) && after <= |log|
    ensures var from := if after < Floor(|log|) then Floor(|log|) else after;
      forall n: nat :: n in Beyond(rows, id, after) <==> from < n <= |log|
  {
    forall n: nat | after < n <= |log| ensures n in Beyond(rows, id, after) <==> Floor(|log|) < n {
      assert (id, n) in rows <==> Floor(|log|) < n;
    }
  }

  lemma EventsFirst(id: string, log: seq<Payload>, from: nat, to: nat)
    requires from < to <= |log|
    ensures Events(id, log, from, to) == [Row(Named(id, from + 1), log[from])] + Events(id, log, from + 1, to)
  {
  }

  /** Listing after a number that is still on offer, or before all that is, gives the next events of the history. */
  lemma {:induction false} FollowingIsEvents(rows: Rows, id: string, log: seq<Payload>, after: nat, limit: nat)
    requires Agrees(rows, id, log) && after <= |log|
    ensures var from := if after < Floor(|log|) then Floor(|log|) else after;
      Following(rows, id, after, limit) == Events(id, log, from, AtMost(from + limit, |log|))
    decreases limit
  {
    hide Events, Beyond;
    var from := if after < Floor(|log|) then Floor(|log|) else after;
    var rest := Beyond(rows, id, after);
    BeyondIsInterval(rows, id, log, after);
    if limit > 0 && from < |log| {
      assert from + 1 in rest && MinOf(rest) == from + 1;
      FollowingIsEvents(rows, id, log, from + 1, limit - 1);
      EventsFirst(id, log, from, AtMost(from + limit, |log|));
    } else {
      NoEvents(id, log, from);
      assert forall n :: n in rest ==> from < n;
    }
  }

  lemma NoEvents(id: string, log: seq<Payload>, at: nat)
    requires at <= |log|
    ensures Events(id, log, at, at) == []
  {
  }

  lemma PastTheEnd(rows: Rows, id: string, log: seq<Payload>, limit: nat)
    requires Agrees(rows, id, log)
    ensures Following(rows, id, MAX_INT64, limit) == []
  {
    assert Beyond(rows, id, MAX_INT64) == {};
  }

  /** Resuming after a retained event gives exactly what was appended next; after any other, nothing. */
  lemma ListAgrees(rows: Rows, id: string, log: seq<Payload>, lastEvent: string, limit: nat)
    requires Agrees(rows, id, log)
    ensures Following(rows, id, ResumeAt(rows, id, lastEvent), limit) == ListFrom(id, log, lastEvent, limit)
  {
    hide Following, Events, Named;
    if lastEvent == "" {
      FollowingIsEvents(rows, id, log, 0, limit);
    } else {
      var matching := set n | n in Numbers(rows, id) && rows[(id, n)].event == lastEvent;
      if matching == {} {
        forall q: nat | Floor(|log|) < q <= |log| ensures Named(id, q) != lastEvent {
          assert (id, q) in rows && q !in matching;
        }
        PastTheEnd(rows, id, log, limit);
      } else {
        var q := MinOf(matching);
        assert (id, q) in rows && q <= |log| && Floor(|log|) < q && Named(id, q) == lastEvent;
        forall p: nat | Named(id, p) == lastEvent ensures p == q {
          NamedInjective(id, p, q);
        }
        FollowingIsEvents(rows, id, log, q, limit);
      }
    }
  }

  /** One request: the trimmed store answers as the full one does, and stays in step with it. */
  lemma HandleRefines(s: Store, f: Full, op: Op)
    requires Matches(s, f)
    ensures Handle(s, op).1 == HandleFull(f, op).1
    ensures Matches(Handle(s, op).0, HandleFull(f, op).0)
  {
    var (s', f') := (Handle(s, op).0, HandleFull(f, op).0);
    match op
    case Append(id, payload) =>
      assert Agrees(s.rows, id, Log(f, id));
      NewestIsLength(s.rows, id, Log(f, id));
      if IsOpen(s.sessions, id) && |Log(f, id)| < MAX_INT64 {
        AppendAgrees(s.rows, id, Log(f, id), payload);
        forall other ensures Agrees(s'.rows, other, Log(f', other)) {
          assert Agrees(s.rows, other, Log(f, other));
        }
      }
    case List(id, lastEvent, limit) =>
      assert Agrees(s.rows, id, Log(f, id));
      ListAgrees(s.rows, id, Log(f, id), lastEvent, limit);
    case DeleteExpired(cutoff) =>
      assert Expired(s.sessions, cutoff) == set id | id in f.sessions && (f.sessions[id].closed || f.sessions[id].lastSeen < cutoff);
      forall id ensures Agrees(s'.rows, id, Log(f', id)) {
        assert Agrees(s.rows, id, Log(f, id));
      }
    case _ =>
      forall id ensures Agrees(s'.rows, id, Log(f', id)) {
        assert Agrees(s.rows, id, Log(f, id));
      }
  }

  function RunTrimmed(s: Store, ops: seq<Op>): (Store, seq<Reply>) {
    if ops == [] then (s, [])
    else
      var (before, replies) := RunTrimmed(s, ops[..|ops| - 1]);
      var (after, reply) := Handle(before, ops[|ops| - 1]);
      (after, replies + [reply])
  }

  ghost function RunFull(f: Full, ops: seq<Op>): (Full, seq<Reply>) {
    if ops == [] then (f, [])
    else
      var (before, replies) := RunFull(f, ops[..|ops| - 1]);
      var (after, reply) := HandleFull(before, ops[|ops| - 1]);
      (after, replies + [reply])
  }

  /** Over any sequence of requests on any sessions, the store that trims gives every answer the store that keeps everything gives. */
  lemma {:induction false} TrimmedRefinesFull(ops: seq<Op>)
    ensures var (s, replies) := RunTrimmed(Store(map[], map[]), ops);
      var (f, expected) := RunFull(Full(map[], map[]), ops);
      replies == expected && Matches(s, f)
  {
    if ops != [] {
      TrimmedRefinesFull(ops[..|ops| - 1]);
      HandleRefines(RunTrimmed(Store(map[], map[]), ops[..|ops| - 1]).0, RunFull(Full(map[], map[]), ops[..|ops| - 1]).0, ops[|ops| - 1]);
    }
  }
}
