/**
 Dispatching the outbox: the inline dispatch of a recorded event, and the
 recovery sweep that claims stale recorded rows, a capped number of times each.
 Rows are kept in sequence order, so a row's index is its rank by number.
 */
module Dispatch {
  import opened Prelude

  const MAX_ATTEMPTS: nat := 20

  datatype DispatchState = Recorded | Dispatched | Failed

  /** `expanded` counts the committed webhook expansions of the event. */
  datatype Row = Row(state: DispatchState, attempts: nat, occurred: int, expanded: nat)

  predicate Stale(r: Row, cutoff: int) {
    r.state.Recorded? && r.occurred <= cutoff
  }

  // ---- what each statement does to the table ----

  function DispatchRow(r: Row): Row {
    if r.state.Recorded? then r.(state := Dispatched, expanded := r.expanded + 1) else r
  }

  function AfterDispatch(rows: seq<Row>, id: nat): seq<Row> {
    if id >= |rows| then rows else rows[id := DispatchRow(rows[id])]
  }

  function RetireRow(r: Row, cutoff: int): Row {
    if Stale(r, cutoff) && r.attempts >= MAX_ATTEMPTS then r.(state := Failed) else r
  }

  function Retire(rows: seq<Row>, cutoff: int): (retired: seq<Row>)
    ensures |retired| == |rows|
  {
    seq(|rows|, i requires 0 <= i < |rows| => RetireRow(rows[i], cutoff))
  }

  /** How many stale rows come before the first n are over. */
  function StaleBefore(rows: seq<Row>, cutoff: int, n: nat): nat
    requires n <= |rows|
  {
    if n == 0 then 0 else StaleBefore(rows, cutoff, n - 1) + if Stale(rows[n - 1], cutoff) then 1 else 0
  }

  /** Among the first `limit` stale rows in sequence order. */
  predicate Claims(rows: seq<Row>, cutoff: int, limit: nat, i: nat)
    requires i < |rows|
  {
    Stale(rows[i], cutoff) && StaleBefore(rows, cutoff, i) < limit
  }

  function Claim(rows: seq<Row>, cutoff: int, limit: nat): (claimed: seq<Row>)
    ensures |claimed| == |rows|
  {
    seq(|rows|, i requires 0 <= i < |rows| => if Claims(rows, cutoff, limit, i) then rows[i].(attempts := rows[i].attempts + 1) else rows[i])
  }

  /** A sweep pass over the table: retire what has exhausted its attempts, then claim a batch. */
  function Pass(rows: seq<Row>, cutoff: int, limit: nat): seq<Row> {
    Claim(Retire(rows, cutoff), cutoff, limit)
  }

  function AfterAll(rows: seq<Row>, ids: seq<nat>): seq<Row> {
    if ids == [] then rows else AfterDispatch(AfterAll(rows, ids[..|ids| - 1]), ids[|ids| - 1])
  }

  /** A dispatch of a recorded row expands and flips it; anything else leaves it as it was. */
  predicate Delivered(before: Row, after: Row, dispatched: bool) {
    if dispatched && before.state == Recorded then after.state == Dispatched && after == before.(state := after.state, expanded := before.expanded + 1)
    else after == before
  }

  lemma {:induction false} AfterAllDelivers(rows: seq<Row>, ids: seq<nat>)
    ensures |AfterAll(rows, ids)| == |rows|
    ensures forall i :: 0 <= i < |rows| ==> Delivered(rows[i], AfterAll(rows, ids)[i], i in ids)
  {
    if ids != [] {
      AfterAllDelivers(rows, ids[..|ids| - 1]);
      assert forall i :: i in ids <==> i in ids[..|ids| - 1] || i == ids[|ids| - 1];
    }
  }

  class EventStore {
    var rows: seq<Row>

    constructor ()
      ensures rows == []
    {
      rows := [];
    }

    method Record(occurred: int) returns (id: nat)
      modifies this
      ensures id == old(|rows|) && rows == old(rows) + [Row(Recorded, 0, occurred, 0)] && rows == Act(old(rows), Recording(occurred))
    {
      id := |rows|;
      rows := rows + [Row(Recorded, 0, occurred, 0)];
    }

    /** Expands and flips a recorded event; one that is unknown, dispatched or failed completes as a no-op. */
    method Dispatch(id: nat)
      modifies this
      ensures rows == AfterDispatch(old(rows), id) && |rows| == old(|rows|)
      ensures forall i :: 0 <= i < |rows| ==> Delivered(old(rows)[i], rows[i], i == id)
    {
      if id >= |rows| {
        return;
      }
      var row := rows[id];
      if row.state.Dispatched? || row.state.Failed? {
        return;
      }
      row := row.(expanded := row.expanded + 1);
      rows := rows[id := row.(state := Dispatched)];
    }

    /** Retires, claims, and returns what it claimed in sequence order, without the rows that do not parse. */
    method ListRecordedBefore(cutoff: int, limit: nat, malformed: set<nat>) returns (drafts: seq<nat>, skipped: set<nat>)
      modifies this
      ensures rows == Pass(old(rows), cutoff, limit)
      ensures var retired := Retire(old(rows), cutoff);
        && (forall i: nat :: i in drafts <==> i < |retired| && Claims(retired, cutoff, limit, i) && i !in malformed)
        && (forall i: nat :: i in skipped <==> i < |retired| && Claims(retired, cutoff, limit, i) && i in malformed)
      ensures forall i, j :: 0 <= i < j < |drafts| ==> drafts[i] < drafts[j]
    {
      rows := Retire(rows, cutoff);
      var retired := rows;
      rows := Claim(rows, cutoff, limit);
      drafts, skipped := [], {};
      var n := 0;
      while n < |retired|
        invariant n <= |retired|
        invariant forall i: nat :: i in drafts <==> i < n && Claims(retired, cutoff, limit, i) && i !in malformed
        invariant forall i: nat :: i in skipped <==> i < n && Claims(retired, cutoff, limit, i) && i in malformed
        invariant forall i, j :: 0 <= i < j < |drafts| ==> drafts[i] < drafts[j]
      {
        if Claims(retired, cutoff, limit, n) {
          if n in malformed {
            skipped := skipped + {n};
          } else {
            assert forall i :: 0 <= i < |drafts| ==> drafts[i] in drafts;
            drafts := drafts + [n];
          }
        }
        n := n + 1;
      }
    }

    /** Dispatches each draft whose notification fan-out succeeded; the others stay recorded for a later pass. */
    method DispatchDrafts(drafts: seq<nat>, notified: set<nat>) returns (sent: seq<nat>)
      modifies this
      ensures rows == AfterAll(old(rows), sent)
      ensures forall i :: i in sent <==> i in drafts && i in notified
    {
      sent := [];
      var n := 0;
      while n < |drafts|
        invariant n <= |drafts|
        invariant rows == AfterAll(old(rows), sent)
        invariant forall i :: i in sent <==> i in drafts[..n] && i in notified
      {
        assert drafts[..n + 1] == drafts[..n] + [drafts[n]];
        if drafts[n] in notified {
          Dispatch(drafts[n]);
          assert (sent + [drafts[n]])[..|sent|] == sent;
          sent := sent + [drafts[n]];
        }
        n := n + 1;
      }
      assert drafts[..n] == drafts;
    }

    /** A whole sweep: what it dispatches it claimed, parsed and notified. */
    method Sweep(cutoff: int, limit: nat, malformed: set<nat>, notified: set<nat>) returns (sent: seq<nat>)
      modifies this
      ensures rows == AfterAll(Pass(old(rows), cutoff, limit), sent)
      ensures var retired := Retire(old(rows), cutoff);
        forall i: nat :: i in sent <==> i < |retired| && Claims(retired, cutoff, limit, i) && i !in malformed && i in notified
      ensures |rows| == old(|rows|)
      ensures forall i <- sent :: i < |rows| && old(rows)[i].state == Recorded && rows[i].state == Dispatched && rows[i].expanded == old(rows)[i].expanded + 1
      ensures forall i :: 0 <= i < |rows| && i !in sent ==> rows[i].expanded == old(rows)[i].expanded && (rows[i].state == Dispatched <==> old(rows)[i].state == Dispatched)
    {
      var drafts, skipped := ListRecordedBefore(cutoff, limit, malformed);
      ghost var claimed := rows;
      sent := DispatchDrafts(drafts, notified);
      AfterAllDelivers(claimed, sent);
    }
  }

  // ---- histories ----

  /**
   Events being recorded, inline and sweep dispatches, and the two statements of
   sweep passes, each committed on its own, in any order.
   */
  datatype Action = Recording(occurred: int) | Dispatching(id: nat) | Retiring(cutoff: int) | Claiming(cutoff: int, limit: nat)

  function Act(rows: seq<Row>, a: Action): seq<Row> {
    match a
    case Recording(occurred) => rows + [Row(Recorded, 0, occurred, 0)]
    case Dispatching(id) => AfterDispatch(rows, id)
    case Retiring(cutoff) => Retire(rows, cutoff)
    case Claiming(cutoff, limit) => Claim(rows, cutoff, limit)
  }

  function History(rows: seq<Row>, actions: seq<Action>): seq<Row> {
    if actions == [] then rows else Act(History(rows, actions[..|actions| - 1]), actions[|actions| - 1])
  }

  /** An event was expanded exactly once if dispatched and never otherwise. */
  ghost predicate Sound(rows: seq<Row>) {
    forall i :: 0 <= i < |rows| ==> rows[i].expanded == if rows[i].state.Dispatched? then 1 else 0
  }

  /** Attempts are within the cap. */
  ghost predicate Capped(rows: seq<Row>) {
    forall i :: 0 <= i < |rows| ==> rows[i].attempts <= 20
  }

  /** Dispatched and failed are final, an occurrence never moves, and attempts only go up. */
  ghost predicate Later(r: Row, s: Row) {
    && s.occurred == r.occurred && s.attempts >= r.attempts
    && (!r.state.Recorded? ==> s == r)
  }

  lemma ActKeeps(rows: seq<Row>, a: Action)
    requires Sound(rows)
    ensures Sound(Act(rows, a)) && |rows| <= |Act(rows, a)|
    ensures forall i :: 0 <= i < |rows| ==> Later(rows[i], Act(rows, a)[i])
  {
  }

  /** However the statements interleave, each event is expanded at most once, exactly when dispatched, and never once it has failed. */
  lemma {:induction false} HistoryKeeps(rows: seq<Row>, actions: seq<Action>)
    requires Sound(rows)
    ensures Sound(History(rows, actions)) && |rows| <= |History(rows, actions)|
    ensures forall i :: 0 <= i < |rows| ==> Later(rows[i], History(rows, actions)[i])
  {
    hide Act;
    if actions != [] {
      HistoryKeeps(rows, actions[..|actions| - 1]);
      ActKeeps(History(rows, actions[..|actions| - 1]), actions[|actions| - 1]);
    }
  }

  // ---- what becomes of an event ----

  /** At move k a dispatch of row t finds it recorded. */
  predicate DispatchRan(rows: seq<Row>, actions: seq<Action>, k: nat, t: nat)
    requires k < |actions|
  {
    var before := History(rows, actions[..k]);
    actions[k] == Dispatching(t) && t < |before| && before[t].state == Recorded
  }

  /** At move k a retire finds row t recorded, stale and with its 20 attempts spent. */
  predicate RetireRan(rows: seq<Row>, actions: seq<Action>, k: nat, t: nat)
    requires k < |actions|
  {
    var before := History(rows, actions[..k]);
    actions[k].Retiring? && t < |before| && before[t].state == Recorded && before[t].occurred <= actions[k].cutoff && before[t].attempts >= 20
  }

  lemma HistoryNext(rows: seq<Row>, actions: seq<Action>, n: nat)
    requires n < |actions|
    ensures History(rows, actions[..n + 1]) == Act(History(rows, actions[..n]), actions[n])
  {
    assert actions[..n + 1][..n] == actions[..n];
  }

  lemma ActDecides(rows: seq<Row>, a: Action, t: nat)
    requires t < |rows|
    ensures t < |Act(rows, a)|
    ensures Act(rows, a)[t].state == Dispatched <==> rows[t].state == Dispatched || (rows[t].state == Recorded && a == Dispatching(t))
    ensures Act(rows, a)[t].state == Failed <==>
      rows[t].state == Failed || (rows[t].state == Recorded && a.Retiring? && rows[t].occurred <= a.cutoff && rows[t].attempts >= 20)
  {
  }

  /** After n moves a row is dispatched or failed exactly when a dispatch, or a retire of its spent attempts, found it recorded. */
  lemma {:induction false} OutcomeIff(rows: seq<Row>, actions: seq<Action>, n: nat, t: nat)
    requires t < |rows| && n <= |actions|
    ensures var after := History(rows, actions[..n]);
      && t < |after|
      && (after[t].state == Dispatched <==> rows[t].state == Dispatched || exists k: nat :: k < n && DispatchRan(rows, actions, k, t))
      && (after[t].state == Failed <==> rows[t].state == Failed || exists k: nat :: k < n && RetireRan(rows, actions, k, t))
  {
    hide Act;
    if n > 0 {
      OutcomeIff(rows, actions, n - 1, t);
      HistoryNext(rows, actions, n - 1);
      ActDecides(History(rows, actions[..n - 1]), actions[n - 1], t);
      var (before, a) := (History(rows, actions[..n - 1]), actions[n - 1]);
      assert DispatchRan(rows, actions, n - 1, t) <==> a == Dispatching(t) && before[t].state == Recorded;
      assert RetireRan(rows, actions, n - 1, t) <==> a.Retiring? && before[t].state == Recorded && before[t].occurred <= a.cutoff && before[t].attempts >= 20;
    }
  }

  /** An event dispatched while it is recorded has been expanded once and is dispatched in every later state. */
  lemma DispatchIsForGood(rows: seq<Row>, actions: seq<Action>, k: nat, n: nat, t: nat)
    requires Sound(rows) && t < |rows| && k < n <= |actions| && DispatchRan(rows, actions, k, t)
    ensures var after := History(rows, actions[..n]); t < |after| && after[t].state == Dispatched && after[t].expanded == 1
  {
    OutcomeIff(rows, actions, n, t);
    HistoryKeeps(rows, actions[..n]);
  }

  /** The rows before n that are recorded and have occurred by the cutoff. */
  function StaleSet(rows: seq<Row>, cutoff: int, n: nat): set<nat>
    requires n <= |rows|
  {
    set i: nat | i < n && rows[i].state == Recorded && rows[i].occurred <= cutoff
  }

  lemma {:induction false} StaleBeforeCounts(rows: seq<Row>, cutoff: int, n: nat)
    requires n <= |rows|
    ensures StaleBefore(rows, cutoff, n) == |StaleSet(rows, cutoff, n)|
  {
    if n > 0 {
      StaleBeforeCounts(rows, cutoff, n - 1);
      var before := StaleSet(rows, cutoff, n - 1);
      assert StaleSet(rows, cutoff, n) == if Stale(rows[n - 1], cutoff) then before + {n - 1} else before;
    }
  }

  /** A claim adds an attempt to exactly the first `limit` recorded rows that have occurred by the cutoff. */
  lemma ClaimTakesTheFirst(rows: seq<Row>, cutoff: int, limit: nat, i: nat)
    requires i < |rows|
    ensures var claimed := rows[i].state == Recorded && rows[i].occurred <= cutoff && |StaleSet(rows, cutoff, i)| < limit;
      Claim(rows, cutoff, limit)[i] == if claimed then rows[i].(attempts := rows[i].attempts + 1) else rows[i]
  {
    StaleBeforeCounts(rows, cutoff, i);
  }

  // ---- the cap, one pass at a time ----

  /** No stale row has spent its attempts: what a retire leaves behind. */
  ghost predicate Checked(rows: seq<Row>, cutoff: int) {
    forall i :: 0 <= i < |rows| && Stale(rows[i], cutoff) ==> rows[i].attempts < MAX_ATTEMPTS
  }

  /** The cutoff of the pass that has retired and not claimed yet. */
  function OpenPass(actions: seq<Action>): Option<int> {
    if actions == [] then None
    else match actions[|actions| - 1]
      case Retiring(cutoff) => Some(cutoff)
      case Claiming(_, _) => None
      case _ => OpenPass(actions[..|actions| - 1])
  }

  /** Every claim follows its own pass's retire with no other claim in between; recordings and dispatches come anywhere. */
  predicate OneAtATime(actions: seq<Action>) {
    actions == [] ||
    (var (before, a) := (actions[..|actions| - 1], actions[|actions| - 1]);
     OneAtATime(before) && (a.Claiming? ==> OpenPass(before).Some? && OpenPass(before).value >= a.cutoff))
  }

  lemma ActKeepsCap(rows: seq<Row>, a: Action, open: Option<int>)
    requires Capped(rows) && (open.Some? ==> Checked(rows, open.value))
    requires a.Claiming? ==> open.Some? && open.value >= a.cutoff
    ensures Capped(Act(rows, a))
    ensures a.Retiring? ==> Checked(Act(rows, a), a.cutoff)
    ensures (a.Recording? || a.Dispatching?) && open.Some? ==> Checked(Act(rows, a), open.value)
  {
  }

  /** With passes one at a time no event is ever claimed more often than the cap allows. */
  lemma {:induction false} OneAtATimeKeepsCap(rows: seq<Row>, actions: seq<Action>)
    requires Capped(rows) && OneAtATime(actions)
    ensures Capped(History(rows, actions))
    ensures OpenPass(actions).Some? ==> Checked(History(rows, actions), OpenPass(actions).value)
  {
    hide Act, Checked;
    if actions != [] {
      var before := actions[..|actions| - 1];
      OneAtATimeKeepsCap(rows, before);
      ActKeepsCap(History(rows, before), actions[|actions| - 1], OpenPass(before));
    }
  }

  // ---- the cap, passes interleaved ----

  /** The claims of a history that take row i. */
  function Claimings(rows: seq<Row>, actions: seq<Action>, i: nat): nat {
    if actions == [] then 0
    else
      var (before, a) := (History(rows, actions[..|actions| - 1]), actions[|actions| - 1]);
      Claimings(rows, actions[..|actions| - 1], i) + if a.Claiming? && i < |before| && Claims(before, a.cutoff, a.limit, i) then 1 else 0
  }

  /** In any history a row is past the cap if and only if the attempts it began with and the claims since exceed it. */
  lemma {:induction false} PastCapIffClaimsExceed(rows: seq<Row>, actions: seq<Action>, i: nat)
    requires Sound(rows) && i < |rows|
    ensures i < |History(rows, actions)|
    ensures History(rows, actions)[i].attempts > 20 <==> rows[i].attempts + Claimings(rows, actions, i) > 20
    ensures History(rows, actions)[i].attempts == rows[i].attempts + Claimings(rows, actions, i)
  {
    HistoryKeeps(rows, actions);
    if actions != [] {
      HistoryKeeps(rows, actions[..|actions| - 1]);
      PastCapIffClaimsExceed(rows, actions[..|actions| - 1], i);
    }
  }

  datatype Batch = Batch(cutoff: int, limit: nat)

  function RetireAll(rows: seq<Row>, cutoffs: seq<int>): (retired: seq<Row>)
    ensures |retired| == |rows|
  {
    if cutoffs == [] then rows else Retire(RetireAll(rows, cutoffs[..|cutoffs| - 1]), cutoffs[|cutoffs| - 1])
  }

  function ClaimAll(rows: seq<Row>, batches: seq<Batch>): (claimed: seq<Row>)
    ensures |claimed| == |rows|
  {
    if batches == [] then rows
    else Claim(ClaimAll(rows, batches[..|batches| - 1]), batches[|batches| - 1].cutoff, batches[|batches| - 1].limit)
  }

  /** In how many of the batches a row is, judged before any of them is claimed. */
  function Hits(rows: seq<Row>, batches: seq<Batch>, i: nat): nat
    requires i < |rows|
  {
    if batches == [] then 0
    else
      var b := batches[|batches| - 1];
      Hits(rows, batches[..|batches| - 1], i) + if Claims(rows, b.cutoff, b.limit, i) then 1 else 0
  }

  lemma {:induction false} StaleBeforeSame(rows: seq<Row>, other: seq<Row>, cutoff: int, n: nat)
    requires |rows| == |other| && n <= |rows|
    requires forall i :: 0 <= i < |rows| ==> (Stale(rows[i], cutoff) <==> Stale(other[i], cutoff))
    ensures StaleBefore(rows, cutoff, n) == StaleBefore(other, cutoff, n)
  {
    if n > 0 { StaleBeforeSame(rows, other, cutoff, n - 1); }
  }

  /** Claiming changes no row's place in any later batch, so each row gains one attempt for each batch it is in. */
  lemma {:induction false} ClaimAllAddsHits(rows: seq<Row>, batches: seq<Batch>, i: nat)
    requires i < |rows|
    ensures ClaimAll(rows, batches)[i] == rows[i].(attempts := rows[i].attempts + Hits(rows, batches, i))
  {
    if batches != [] {
      var (before, b) := (batches[..|batches| - 1], batches[|batches| - 1]);
      var claimed := ClaimAll(rows, before);
      forall j | 0 <= j < |rows| ensures Stale(claimed[j], b.cutoff) <==> Stale(rows[j], b.cutoff) {
        ClaimAllAddsHits(rows, before, j);
      }
      StaleBeforeSame(claimed, rows, b.cutoff, i);
      ClaimAllAddsHits(rows, before, i);
    }
  }

  /**
   Any number of passes whose retires all come before their claims keep the cap
   if and only if no row, after the retires, is in more of their batches than it
   has attempts left.
   */
  lemma InterleavedPassesKeepCapIff(rows: seq<Row>, cutoffs: seq<int>, batches: seq<Batch>)
    ensures var retired := RetireAll(rows, cutoffs);
      Capped(ClaimAll(retired, batches)) <==> forall i :: 0 <= i < |rows| ==> retired[i].attempts + Hits(retired, batches, i) <= 20
  {
    var retired := RetireAll(rows, cutoffs);
    forall i | 0 <= i < |rows| ensures ClaimAll(retired, batches)[i].attempts == retired[i].attempts + Hits(retired, batches, i) {
      ClaimAllAddsHits(retired, batches, i);
    }
  }

  /** After the retires no row stale at any of their cutoffs has spent its attempts. */
  lemma {:induction false} RetireAllChecks(rows: seq<Row>, cutoffs: seq<int>)
    requires Capped(rows)
    ensures Capped(RetireAll(rows, cutoffs)) && forall c <- cutoffs :: Checked(RetireAll(rows, cutoffs), c)
  {
    if cutoffs != [] {
      var (n, before) := (|cutoffs| - 1, RetireAll(rows, cutoffs[..|cutoffs| - 1]));
      RetireAllChecks(rows, cutoffs[..n]);
      forall c | c in cutoffs ensures Checked(Retire(before, cutoffs[n]), c) {
        assert c in cutoffs[..n] || c == cutoffs[n];
        forall i | 0 <= i < |before| && Stale(Retire(before, cutoffs[n])[i], c) ensures Retire(before, cutoffs[n])[i].attempts < MAX_ATTEMPTS {
          assert Retire(before, cutoffs[n])[i] == before[i];
        }
      }
    }
  }

  lemma HitsOfTwo(rows: seq<Row>, first: Batch, second: Batch, i: nat)
    requires i < |rows|
    ensures Hits(rows, [first, second], i)
         == (if Claims(rows, first.cutoff, first.limit, i) then 1 else 0) + (if Claims(rows, second.cutoff, second.limit, i) then 1 else 0)
  {
    hide Claims;
    assert [first, second][..1] == [first] && [first][..0] == [];
    assert Hits(rows, [first], i) == if Claims(rows, first.cutoff, first.limit, i) then 1 else 0;
  }

  /** For two passes: if and only if no row that both claim is on its last attempt. */
  lemma TwoPassesKeepCapIff(rows: seq<Row>, first: Batch, second: Batch)
    requires Capped(rows)
    ensures var retired := RetireAll(rows, [first.cutoff, second.cutoff]);
      Capped(ClaimAll(retired, [first, second])) <==>
        forall i :: 0 <= i < |rows| && Claims(retired, first.cutoff, first.limit, i) && Claims(retired, second.cutoff, second.limit, i) ==>
          retired[i].attempts < 19
  {
    hide RetireAll, ClaimAll, Hits;
    var cutoffs := [first.cutoff, second.cutoff];
    var retired := RetireAll(rows, cutoffs);
    RetireAllChecks(rows, cutoffs);
    assert first.cutoff in cutoffs && second.cutoff in cutoffs;
    InterleavedPassesKeepCapIff(rows, cutoffs, [first, second]);
    forall i | 0 <= i < |rows|
      ensures retired[i].attempts + Hits(retired, [first, second], i) <= MAX_ATTEMPTS <==>
        (Claims(retired, first.cutoff, first.limit, i) && Claims(retired, second.cutoff, second.limit, i) ==> retired[i].attempts < MAX_ATTEMPTS - 1)
    {
      HitsOfTwo(retired, first, second, i);
    }
  }

  // ---- the cap, passes opening and closing in any order ----

  /** The table, the cutoffs of the passes that have retired and not claimed yet, and the passes that are over. */
  datatype Sweeps = Sweeps(rows: seq<Row>, open: map<nat, int>, over: set<nat>)

  /** A pass opens by retiring and closes by claiming at the same cutoff, once. */
  datatype Move = Arrive(occurred: int) | Deliver(id: nat) | Open(pass: nat, cutoff: int) | Close(pass: nat, limit: nat)

  function Make(s: Sweeps, m: Move): Sweeps {
    match m
    case Arrive(occurred) => s.(rows := Act(s.rows, Recording(occurred)))
    case Deliver(id) => s.(rows := Act(s.rows, Dispatching(id)))
    case Open(pass, cutoff) =>
      if pass in s.open || pass in s.over then s
      else s.(rows := Act(s.rows, Retiring(cutoff)), open := s.open[pass := cutoff])
    case Close(pass, limit) =>
      if pass !in s.open then s
      else Sweeps(Act(s.rows, Claiming(s.open[pass], limit)), s.open - {pass}, s.over + {pass})
  }

  function Play(rows: seq<Row>, moves: seq<Move>): Sweeps {
    if moves == [] then Sweeps(rows, map[], {}) else Make(Play(rows, moves[..|moves| - 1]), moves[|moves| - 1])
  }

  lemma PlayNext(rows: seq<Row>, moves: seq<Move>, n: nat)
    requires n < |moves|
    ensures Play(rows, moves[..n + 1]) == Make(Play(rows, moves[..n]), moves[n])
  {
    assert moves[..n + 1][..n] == moves[..n];
  }

  /** A move that closes a pass whose batch holds row i. */
  predicate Takes(s: Sweeps, m: Move, i: nat) {
    i < |s.rows| && m.Close? && m.pass in s.open && Claims(s.rows, s.open[m.pass], m.limit, i)
  }

  lemma MakeLater(s: Sweeps, m: Move)
    ensures |s.rows| <= |Make(s, m).rows|
    ensures forall i :: 0 <= i < |s.rows| ==> Later(s.rows[i], Make(s, m).rows[i])
    ensures forall i :: 0 <= i < |s.rows| ==> Make(s, m).rows[i].attempts == s.rows[i].attempts + if Takes(s, m, i) then 1 else 0
    ensures forall i :: |s.rows| <= i < |Make(s, m).rows| ==> Make(s, m).rows[i].attempts == 0
  {
  }

  lemma {:induction false} PlayLater(rows: seq<Row>, moves: seq<Move>, a: nat, b: nat, i: nat)
    requires a <= b <= |moves| && i < |Play(rows, moves[..a]).rows|
    ensures i < |Play(rows, moves[..b]).rows| && Play(rows, moves[..b]).rows[i].attempts >= Play(rows, moves[..a]).rows[i].attempts
  {
    hide Make;
    if a < b {
      PlayLater(rows, moves, a, b - 1, i);
      PlayNext(rows, moves, b - 1);
      MakeLater(Play(rows, moves[..b - 1]), moves[b - 1]);
    }
  }

  /** At move l, with pass p open, another pass takes the last attempt of row i. */
  predicate TakesLast(rows: seq<Row>, moves: seq<Move>, l: nat, p: nat, i: nat)
    requires l < |moves|
  {
    var s := Play(rows, moves[..l]);
    Takes(s, moves[l], i) && s.rows[i].attempts == 19 && p in s.open && p != moves[l].pass
  }

  lemma OpenStep(s: Sweeps, m: Move, p: nat, i: nat)
    requires p in Make(s, m).open && i < |Make(s, m).rows| && Stale(Make(s, m).rows[i], Make(s, m).open[p])
    requires Make(s, m).rows[i].attempts >= MAX_ATTEMPTS
    ensures p in s.open && i < |s.rows| && Stale(s.rows[i], s.open[p])
    ensures s.rows[i].attempts >= MAX_ATTEMPTS || (Takes(s, m, i) && s.rows[i].attempts == MAX_ATTEMPTS - 1 && p != m.pass)
  {
  }

  /** An open pass faces a spent row only because another pass took the row's last attempt while it was open. */
  lemma {:induction false} SpentWhileOpen(rows: seq<Row>, moves: seq<Move>, n: nat, p: nat, i: nat) returns (l: nat)
    requires n <= |moves|
    requires var s := Play(rows, moves[..n]); p in s.open && i < |s.rows| && Stale(s.rows[i], s.open[p]) && s.rows[i].attempts >= MAX_ATTEMPTS
    ensures l < n && TakesLast(rows, moves, l, p, i)
    decreases n
  {
    hide Make, Stale;
    l := n - 1;
    PlayNext(rows, moves, l);
    var before := Play(rows, moves[..l]);
    OpenStep(before, moves[l], p, i);
    if before.rows[i].attempts >= MAX_ATTEMPTS {
      l := SpentWhileOpen(rows, moves, l, p, i);
    }
  }

  lemma {:induction false} PastCapTaken(rows: seq<Row>, moves: seq<Move>, n: nat, i: nat) returns (k: nat)
    requires Capped(rows) && n <= |moves| && i < |Play(rows, moves[..n]).rows| && Play(rows, moves[..n]).rows[i].attempts > MAX_ATTEMPTS
    ensures k < n && Takes(Play(rows, moves[..k]), moves[k], i) && Play(rows, moves[..k]).rows[i].attempts >= MAX_ATTEMPTS
    decreases n
  {
    hide Make, Takes;
    k := n - 1;
    PlayNext(rows, moves, k);
    var before := Play(rows, moves[..k]);
    MakeLater(before, moves[k]);
    if before.rows[i].attempts > MAX_ATTEMPTS {
      k := PastCapTaken(rows, moves, k, i);
    }
  }

  /** Two passes are open at once, one takes the last attempt of a row, and later the other takes the row too. */
  ghost predicate Overtaken(rows: seq<Row>, moves: seq<Move>, l: nat, k: nat, i: nat) {
    l < k < |moves| && moves[k].Close? && TakesLast(rows, moves, l, moves[k].pass, i) && Takes(Play(rows, moves[..k]), moves[k], i)
  }

  lemma OvertakenExceeds(rows: seq<Row>, moves: seq<Move>, l: nat, k: nat, i: nat)
    requires Overtaken(rows, moves, l, k, i)
    ensures i < |Play(rows, moves).rows| && Play(rows, moves).rows[i].attempts > MAX_ATTEMPTS
  {
    hide Make, Claims;
    PlayNext(rows, moves, l);
    MakeLater(Play(rows, moves[..l]), moves[l]);
    PlayLater(rows, moves, l + 1, k, i);
    PlayNext(rows, moves, k);
    MakeLater(Play(rows, moves[..k]), moves[k]);
    PlayLater(rows, moves, k + 1, |moves|, i);
    assert moves[..|moves|] == moves;
  }

  /** However passes open and close, the cap is kept if and only if no row is overtaken. */
  lemma PassesKeepCapIff(rows: seq<Row>, moves: seq<Move>)
    requires Capped(rows)
    ensures Capped(Play(rows, moves).rows) <==> !exists l: nat, k: nat, i: nat :: Overtaken(rows, moves, l, k, i)
  {
    hide Overtaken, Play, TakesLast;
    var end := Play(rows, moves).rows;
    if l: nat, k: nat, i: nat :| Overtaken(rows, moves, l, k, i) {
      OvertakenExceeds(rows, moves, l, k, i);
      assert end[i].attempts > MAX_ATTEMPTS;
    } else if i: nat :| i < |end| && end[i].attempts > MAX_ATTEMPTS {
      assert moves[..|moves|] == moves;
      var k := PastCapTaken(rows, moves, |moves|, i);
      var l := SpentWhileOpen(rows, moves, k, moves[k].pass, i);
      assert Overtaken(rows, moves, l, k, i) by { OvertakenIs(rows, moves, l, k, i); }
    }
  }

  lemma OvertakenIs(rows: seq<Row>, moves: seq<Move>, l: nat, k: nat, i: nat)
    requires l < k < |moves| && Takes(Play(rows, moves[..k]), moves[k], i) && TakesLast(rows, moves, l, moves[k].pass, i)
    ensures Overtaken(rows, moves, l, k, i)
  {
  }

  // ---- how far past the cap ----

  /** At no time more than m passes are open. */
  ghost predicate AtMostOpen(rows: seq<Row>, moves: seq<Move>, m: nat) {
    forall n :: 0 <= n <= |moves| ==> |Play(rows, moves[..n]).open| <= m
  }

  /** The open passes that a row is stale to. */
  function Over(s: Sweeps, i: nat): set<nat>
    requires i < |s.rows|
  {
    set p | p in s.open && Stale(s.rows[i], s.open[p])
  }

  /** A spent row has attempts to come only from the passes already open. */
  ghost predicate Within(s: Sweeps, m: nat) {
    forall i :: 0 <= i < |s.rows| ==> s.rows[i].attempts < MAX_ATTEMPTS || s.rows[i].attempts + |Over(s, i)| <= MAX_ATTEMPTS - 1 + m
  }

  lemma SmallerSet(a: set<nat>, b: set<nat>)
    requires a <= b
    ensures |a| <= |b|
    decreases a
  {
    if x :| x in a { SmallerSet(a - {x}, b - {x}); }
  }

  lemma CloseWithin(s: Sweeps, c: Move, m: nat)
    requires Within(s, m) && |s.open| <= m && c.Close? && c.pass in s.open
    ensures Within(Make(s, c), m)
  {
    hide Claims;
    var s' := Make(s, c);
    forall i | 0 <= i < |s'.rows| && s'.rows[i].attempts >= MAX_ATTEMPTS ensures s'.rows[i].attempts + |Over(s', i)| <= MAX_ATTEMPTS - 1 + m {
      assert Over(s', i) == Over(s, i) - {c.pass};
      SmallerSet(Over(s', i), Over(s, i));
      if Claims(s.rows, s.open[c.pass], c.limit, i) {
        assert Stale(s.rows[i], s.open[c.pass]) by { ClaimsStale(s.rows, s.open[c.pass], c.limit, i); }
        assert c.pass in Over(s, i) && Over(s, i) <= s.open.Keys;
        SmallerSet(Over(s, i), s.open.Keys);
      }
    }
  }

  lemma ClaimsStale(rows: seq<Row>, cutoff: int, limit: nat, i: nat)
    requires i < |rows| && Claims(rows, cutoff, limit, i)
    ensures Stale(rows[i], cutoff)
  {
  }

  lemma OpenWithin(s: Sweeps, o: Move, m: nat)
    requires Within(s, m) && o.Open? && o.pass !in s.open && o.pass !in s.over
    ensures Within(Make(s, o), m)
  {
    var s' := Make(s, o);
    forall i | 0 <= i < |s'.rows| && s'.rows[i].attempts >= MAX_ATTEMPTS ensures s'.rows[i].attempts + |Over(s', i)| <= MAX_ATTEMPTS - 1 + m {
      assert Over(s', i) <= Over(s, i);
      SmallerSet(Over(s', i), Over(s, i));
    }
  }

  lemma MakeWithin(s: Sweeps, mv: Move, m: nat)
    requires Within(s, m) && |s.open| <= m
    ensures Within(Make(s, mv), m)
  {
    if mv.Close? {
      if mv.pass in s.open { CloseWithin(s, mv, m); }
    } else if mv.Open? {
      if mv.pass !in s.open && mv.pass !in s.over { OpenWithin(s, mv, m); }
    } else {
      var s' := Make(s, mv);
      forall i | 0 <= i < |s'.rows| && s'.rows[i].attempts >= MAX_ATTEMPTS ensures s'.rows[i].attempts + |Over(s', i)| <= MAX_ATTEMPTS - 1 + m {
        assert Over(s', i) <= Over(s, i);
        SmallerSet(Over(s', i), Over(s, i));
      }
    }
  }

  lemma {:induction false} PlayWithin(rows: seq<Row>, moves: seq<Move>, m: nat, n: nat)
    requires Capped(rows) && m >= 1 && AtMostOpen(rows, moves, m) && n <= |moves|
    ensures Within(Play(rows, moves[..n]), m)
    decreases n
  {
    hide Make, Within;
    if n == 0 {
      StartsWithin(rows, m);
    } else {
      PlayWithin(rows, moves, m, n - 1);
      PlayNext(rows, moves, n - 1);
      MakeWithin(Play(rows, moves[..n - 1]), moves[n - 1], m);
    }
  }

  lemma StartsWithin(rows: seq<Row>, m: nat)
    requires Capped(rows) && m >= 1
    ensures Within(Sweeps(rows, map[], {}), m)
  {
    forall i | 0 <= i < |rows| ensures Over(Sweeps(rows, map[], {}), i) == {} {}
  }

  ghost predicate AttemptsUpTo(rows: seq<Row>, bound: nat) {
    forall i :: 0 <= i < |rows| ==> rows[i].attempts <= bound
  }

  /** Opens m passes over a row with one attempt left, then closes them. */
  function Pileup(m: nat): seq<Move> {
    seq(2 * m, i requires 0 <= i < 2 * m => if i < m then Open(i, 0) else Close(i - m, 1))
  }

  /** One row with that many attempts, and the passes from `first` up to `next` open. */
  ghost predicate Piled(s: Sweeps, attempts: nat, first: nat, next: nat) {
    && first <= next && s.rows == [Row(Recorded, attempts, 0, 0)] && |s.open| == next - first
    && (forall p :: p in s.open <==> first <= p < next)
    && (forall p <- s.open :: s.open[p] == 0) && (forall p <- s.over :: p < first)
  }

  lemma PileOpen(s: Sweeps, attempts: nat, first: nat, next: nat)
    requires Piled(s, attempts, first, next) && attempts < MAX_ATTEMPTS
    ensures Piled(Make(s, Open(next, 0)), attempts, first, next + 1)
  {
  }

  lemma PileClose(s: Sweeps, attempts: nat, first: nat, next: nat)
    requires Piled(s, attempts, first, next) && first < next
    ensures Piled(Make(s, Close(first, 1)), attempts + 1, first + 1, next)
  {
    assert Claims(s.rows, s.open[first], 1, 0);
    assert Make(s, Close(first, 1)).rows == [Row(Recorded, attempts + 1, 0, 0)];
    assert (s.open - {first}).Keys == s.open.Keys - {first};
  }

  const PILE := [Row(Recorded, MAX_ATTEMPTS - 1, 0, 0)]

  lemma {:induction false} PileupOpens(m: nat, n: nat)
    requires n <= m
    ensures Piled(Play(PILE, Pileup(m)[..n]), MAX_ATTEMPTS - 1, 0, n)
  {
    hide Make;
    if n > 0 {
      PileupOpens(m, n - 1);
      PlayNext(PILE, Pileup(m), n - 1);
      PileOpen(Play(PILE, Pileup(m)[..n - 1]), MAX_ATTEMPTS - 1, 0, n - 1);
    }
  }

  lemma {:induction false} PileupCloses(m: nat, j: nat)
    requires j <= m
    ensures Piled(Play(PILE, Pileup(m)[..m + j]), MAX_ATTEMPTS - 1 + j, j, m)
  {
    hide Make, Play, Piled;
    if j == 0 {
      PileupOpens(m, m);
    } else {
      PileupCloses(m, j - 1);
      PlayNext(PILE, Pileup(m), m + j - 1);
      PileClose(Play(PILE, Pileup(m)[..m + j - 1]), MAX_ATTEMPTS + j - 2, j - 1, m);
    }
  }

  /** What m passes open at a time can do to attempts, in any schedule, is exactly to bring them to one less than the cap and m. */
  lemma OpenPassesBoundIff(m: nat, bound: nat)
    requires m >= 1
    ensures (forall rows, moves :: Capped(rows) && AtMostOpen(rows, moves, m) ==> AttemptsUpTo(Play(rows, moves).rows, bound)) <==> bound >= 19 + m
  {
    hide Play, Make, Pileup, AtMostOpen;
    if bound >= MAX_ATTEMPTS - 1 + m {
      forall rows, moves | Capped(rows) && AtMostOpen(rows, moves, m) ensures AttemptsUpTo(Play(rows, moves).rows, bound) {
        PlayWithin(rows, moves, m, |moves|);
        assert moves[..|moves|] == moves;
      }
    } else {
      PileupReaches(m);
      var end := Play(PILE, Pileup(m)).rows;
      assert end[0].attempts > bound && !AttemptsUpTo(end, bound);
    }
  }

  lemma PileupReaches(m: nat)
    ensures Capped(PILE) && AtMostOpen(PILE, Pileup(m), m) && Play(PILE, Pileup(m)).rows == [Row(Recorded, MAX_ATTEMPTS - 1 + m, 0, 0)]
  {
    hide Play, Make;
    PileupCloses(m, m);
    assert Pileup(m)[..m + m] == Pileup(m);
    forall n | 0 <= n <= 2 * m ensures |Play(PILE, Pileup(m)[..n]).open| <= m {
      if n <= m { PileupOpens(m, n); } else { PileupCloses(m, n - m); }
    }
  }

  // ---- the sweep drains ----

  /** How many more claims a row can absorb. */
  function Weight(r: Row): int {
    if r.state.Recorded? then MAX_ATTEMPTS + 1 - r.attempts else 0
  }

  function Potential(rows: seq<Row>): int {
    if rows == [] then 0 else Potential(rows[..|rows| - 1]) + Weight(rows[|rows| - 1])
  }

  lemma {:induction false} PotentialBounds(rows: seq<Row>)
    requires Capped(rows)
    ensures 0 <= Potential(rows) <= (MAX_ATTEMPTS + 1) * |rows|
    ensures forall i :: 0 <= i < |rows| && rows[i].state.Recorded? ==> Potential(rows) >= 1
  {
    if rows != [] {
      PotentialBounds(rows[..|rows| - 1]);
    }
  }

  lemma {:induction false} PotentialCompares(a: seq<Row>, b: seq<Row>)
    requires |a| == |b| && forall i :: 0 <= i < |a| ==> Weight(b[i]) <= Weight(a[i])
    ensures Potential(b) <= Potential(a)
    ensures (exists i :: 0 <= i < |a| && Weight(b[i]) < Weight(a[i])) ==> Potential(b) < Potential(a)
  {
    if a != [] {
      PotentialCompares(a[..|a| - 1], b[..|b| - 1]);
    }
  }

  lemma {:induction false} FirstStale(rows: seq<Row>, cutoff: int, n: nat) returns (first: nat)
    requires n < |rows| && Stale(rows[n], cutoff)
    ensures first <= n && Stale(rows[first], cutoff) && StaleBefore(rows, cutoff, first) == 0
  {
    if i: nat :| i < n && Stale(rows[i], cutoff) {
      first := FirstStale(rows, cutoff, i);
    } else {
      NoneStale(rows, cutoff, n);
      first := n;
    }
  }

  lemma {:induction false} NoneStale(rows: seq<Row>, cutoff: int, n: nat)
    requires n <= |rows| && forall i: nat | i < n :: !Stale(rows[i], cutoff)
    ensures StaleBefore(rows, cutoff, n) == 0
  {
    if n > 0 { NoneStale(rows, cutoff, n - 1); }
  }

  lemma ActNeverRaises(rows: seq<Row>, a: Action, t: nat)
    requires Capped(rows) && t < |rows|
    ensures t < |Act(rows, a)| && Potential(Act(rows, a)[..t + 1]) <= Potential(rows[..t + 1])
  {
    var (before, after) := (rows[..t + 1], Act(rows, a)[..t + 1]);
    forall i | 0 <= i < |before| ensures Weight(after[i]) <= Weight(before[i]) {
      assert before[i] == rows[i] && after[i] == Act(rows, a)[i];
    }
    PotentialCompares(before, after);
  }

  /** A claim that finds row t stale lowers the potential of the rows up to t: the first stale row is no later, and is claimed. */
  lemma ClaimLowers(rows: seq<Row>, cutoff: int, limit: nat, t: nat)
    requires Capped(rows) && t < |rows| && Stale(rows[t], cutoff) && limit >= 1
    ensures Potential(Claim(rows, cutoff, limit)[..t + 1]) < Potential(rows[..t + 1])
  {
    var (before, after) := (rows[..t + 1], Claim(rows, cutoff, limit)[..t + 1]);
    forall i | 0 <= i < |before| ensures Weight(after[i]) <= Weight(before[i]) {
      assert before[i] == rows[i] && after[i] == Claim(rows, cutoff, limit)[i];
    }
    var first := FirstStale(rows, cutoff, t);
    assert Claims(rows, cutoff, limit, first);
    assert Weight(after[first]) < Weight(before[first]);
    PotentialCompares(before, after);
  }

  /** So does a retire that fails it. */
  lemma RetireLowers(rows: seq<Row>, cutoff: int, t: nat)
    requires Capped(rows) && t < |rows| && Stale(rows[t], cutoff) && rows[t].attempts == MAX_ATTEMPTS
    ensures Potential(Retire(rows, cutoff)[..t + 1]) < Potential(rows[..t + 1])
  {
    var (before, after) := (rows[..t + 1], Retire(rows, cutoff)[..t + 1]);
    forall i | 0 <= i < |before| ensures Weight(after[i]) <= Weight(before[i]) {
      assert before[i] == rows[i] && after[i] == Retire(rows, cutoff)[i];
    }
    assert Weight(after[t]) < Weight(before[t]);
    PotentialCompares(before, after);
  }

  /** A whole pass that finds row t stale lowers the potential of the rows up to t, by claiming or by retiring. */
  lemma PassLowers(rows: seq<Row>, cutoff: int, limit: nat, t: nat)
    requires Capped(rows) && t < |rows| && Stale(rows[t], cutoff) && limit >= 1
    ensures Potential(Pass(rows, cutoff, limit)[..t + 1]) < Potential(rows[..t + 1])
  {
    hide Potential;
    var retired := Retire(rows, cutoff);
    assert Act(rows, Retiring(cutoff)) == retired && Act(retired, Claiming(cutoff, limit)) == Pass(rows, cutoff, limit);
    assert Capped(retired);
    ActNeverRaises(rows, Retiring(cutoff), t);
    ActNeverRaises(retired, Claiming(cutoff, limit), t);
    if rows[t].attempts == MAX_ATTEMPTS { RetireLowers(rows, cutoff, t); } else { ClaimLowers(retired, cutoff, limit, t); }
  }

  /** The claims of a history whose cutoff has reached an occurrence. */
  function Passes(actions: seq<Action>, occurred: int): nat {
    if actions == [] then 0
    else
      var a := actions[|actions| - 1];
      Passes(actions[..|actions| - 1], occurred) + if a.Claiming? && a.cutoff >= occurred && a.limit >= 1 then 1 else 0
  }

  lemma {:induction false} PassesSpendPotential(rows: seq<Row>, actions: seq<Action>, t: nat)
    requires Sound(rows) && Capped(rows) && OneAtATime(actions) && t < |rows|
    ensures t < |History(rows, actions)|
    ensures History(rows, actions)[t].state.Recorded? ==>
      Potential(History(rows, actions)[..t + 1]) + Passes(actions, rows[t].occurred) <= Potential(rows[..t + 1])
  {
    hide Potential, Capped, Sound;
    HistoryKeeps(rows, actions);
    if actions != [] && History(rows, actions)[t].state.Recorded? {
      var (before, a) := (History(rows, actions[..|actions| - 1]), actions[|actions| - 1]);
      HistoryKeeps(rows, actions[..|actions| - 1]);
      OneAtATimeKeepsCap(rows, actions[..|actions| - 1]);
      PassesSpendPotential(rows, actions[..|actions| - 1], t);
      ActKeeps(before, a);
      assert Later(before[t], Act(before, a)[t]) && Later(rows[t], before[t]);
      ActNeverRaises(before, a, t);
      if a.Claiming? && a.cutoff >= rows[t].occurred && a.limit >= 1 {
        ClaimLowers(before, a.cutoff, a.limit, t);
      }
    }
  }

  /**
   Every event leaves `recorded`: after 21 passes, one at a time, for each row up
   to and including its own, whatever the rows before it do, however small the
   batch and whatever is recorded or dispatched in between, even inside a pass, it
   is dispatched for good if a dispatch of it ran while it was recorded, and
   failed for good if none did.
   */
  lemma SweepDrains(rows: seq<Row>, actions: seq<Action>, t: nat)
    requires Sound(rows) && Capped(rows) && OneAtATime(actions) && t < |rows|
    requires Passes(actions, rows[t].occurred) >= 21 * (t + 1)
    ensures t < |History(rows, actions)|
    ensures var r := History(rows, actions)[t];
      if rows[t].state == Dispatched || exists k: nat :: k < |actions| && DispatchRan(rows, actions, k, t) then r.state == Dispatched && r.expanded == 1
      else r.state == Failed && r.expanded == 0
  {
    HistoryKeeps(rows, actions);
    OneAtATimeKeepsCap(rows, actions);
    PassesSpendPotential(rows, actions, t);
    PotentialBounds(rows[..t + 1]);
    var after := History(rows, actions)[..t + 1];
    assert after[t] == History(rows, actions)[t];
    PotentialBounds(after);
    assert actions[..|actions|] == actions;
    OutcomeIff(rows, actions, |actions|, t);
  }

  /** A row retires only after as many claims as the cap allows: a pass fails it exactly when it is stale and its 20 attempts are spent. */
  lemma PassFailsExactlyTheSpent(rows: seq<Row>, cutoff: int, limit: nat, i: nat)
    requires i < |rows|
    ensures Pass(rows, cutoff, limit)[i].state == Failed <==>
      rows[i].state == Failed || (rows[i].state == Recorded && rows[i].occurred <= cutoff && rows[i].attempts >= 20)
  {
  }
}
