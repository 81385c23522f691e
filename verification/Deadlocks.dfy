/**
 When the locks of the commands can deadlock. A command takes its locks in an
 order that all commands can share or it does not; commands that do never wait in
 a circle, and every command that does not can come to wait for one that waits
 for it.
 */
module Deadlocks {
  import opened Prelude
  import opened Locks

  // ---- the order of the locks ----

  lemma {:induction false} BeforeIsStrict(a: string, b: string, c: string)
    ensures !Before(a, a)
    ensures Before(a, b) && Before(b, c) ==> Before(a, c)
  {
    if a != [] {
      BeforeIsStrict(a[1..], if b == [] then [] else b[1..], if c == [] then [] else c[1..]);
    }
  }

  lemma {:induction false} BeforeIsTotal(a: string, b: string)
    ensures a == b || Before(a, b) || Before(b, a)
  {
    if a != [] && b != [] && a[0] == b[0] {
      BeforeIsTotal(a[1..], b[1..]);
      assert a == [a[0]] + a[1..] && b == [b[0]] + b[1..];
    }
  }

  lemma RefKeyInjective(p: Party, q: Party)
    requires RefKey(p) == RefKey(q)
    ensures p == q
  {
    assert RefKey(p)[0] == RefKey(q)[0];
    match (p, q)
    case (User(m), User(n)) =>
      assert RefKey(p)[5..] == Text(m) && RefKey(q)[5..] == Text(n);
      TextInjective(m, n);
    case (Organization(m), Organization(n)) =>
      assert RefKey(p)[13..] == Text(m) && RefKey(q)[13..] == Text(n);
      TextInjective(m, n);
    case (Team(m), Team(n)) =>
      assert RefKey(p)[5..] == Text(m) && RefKey(q)[5..] == Text(n);
      TextInjective(m, n);
    case _ =>
  }

  /** Order of the accounts by key. */
  predicate Earlier(p: Party, q: Party) {
    Before(RefKey(p), RefKey(q))
  }

  lemma EarlierIsOrder(p: Party, q: Party, r: Party)
    ensures !Earlier(p, p)
    ensures Earlier(p, q) && Earlier(q, r) ==> Earlier(p, r)
    ensures p == q || Earlier(p, q) || Earlier(q, p)
  {
    hide Before;
    BeforeIsStrict(RefKey(p), RefKey(q), RefKey(r));
    BeforeIsTotal(RefKey(p), RefKey(q));
    if RefKey(p) == RefKey(q) { RefKeyInjective(p, q); }
  }

  /**
   Rows of tasks come before all accounts, except those of tasks that are being
   funded, which come after; then credentials, and the fence last.
   */
  function Level(r: Resource, funded: set<TaskId>): nat {
    match r
    case Row(t) => if t in funded then 2 else 0
    case Account(_) => 1
    case Credential(_) => 3
    case Fence => 4
  }

  /** Levels, and accounts among themselves in key order: a partial order. */
  predicate Below(r: Resource, q: Resource, funded: set<TaskId>) {
    Level(r, funded) < Level(q, funded) || (r.Account? && q.Account? && Earlier(r.owner, q.owner))
  }

  lemma BelowIsStrict(r: Resource, q: Resource, p: Resource, funded: set<TaskId>)
    ensures !Below(r, r, funded)
    ensures Below(r, q, funded) && Below(q, p, funded) ==> Below(r, p, funded)
  {
    hide Earlier;
    if r.Account? { EarlierIsOrder(r.owner, r.owner, r.owner); }
    if r.Account? && q.Account? && p.Account? { EarlierIsOrder(r.owner, q.owner, p.owner); }
  }

  /** All locks held are below a resource. */
  predicate Under(held: set<Resource>, shared: set<Resource>, q: Resource, funded: set<TaskId>) {
    forall r <- held + shared :: Below(r, q, funded)
  }

  /** Each lock not held already is taken above every lock held by then. */
  predicate Ascending(todo: seq<Op>, held: set<Resource>, shared: set<Resource>, funded: set<TaskId>) {
    todo != [] ==>
      && (Granted(todo[0], held, shared) || Under(held, shared, Target(todo[0]), funded))
      && Ascending(todo[1..], HeldAfter(todo[0], held), SharedAfter(todo[0], shared), funded)
  }

  lemma Climb(op: Op, rest: seq<Op>, held: set<Resource>, shared: set<Resource>, funded: set<TaskId>)
    requires Granted(op, held, shared) || Under(held, shared, Target(op), funded)
    requires Ascending(rest, HeldAfter(op, held), SharedAfter(op, shared), funded)
    ensures Ascending([op] + rest, held, shared, funded)
  {
    assert ([op] + rest)[1..] == rest;
  }

  // ---- the commands in that order ----

  predicate InOrder(first: Party, second: Party) {
    first == second || Earlier(first, second)
  }

  /**
   What keeps the locks of a command in order; only a review can fail it. What it
   returns must go to the worker or a later account. If it only tips, through no
   credential, the reviewer's account must come no later than the worker's. If it
   pays and tips, worker and reviewer must be one, or the reviewer come after the
   worker and after whoever had the rest returned, with no credential in between.
   */
  predicate Orderly(c: Command) {
    c.Review? ==>
      && (Returns(c) ==> InOrder(c.worker, c.funder))
      && (c.tip.None? ||
          if c.paid.None? then c.charge.None? && InOrder(c.reviewer, c.worker)
          else c.reviewer == c.worker || (c.charge.None? && Earlier(c.worker, c.reviewer) && (Returns(c) ==> c.funder == c.worker || Earlier(c.funder, c.reviewer))))
  }

  /** Whether a command locks an account while it holds a task's row. */
  predicate LocksUnderRow(c: Command) {
    c.Refund? || (c.Review? && (c.paid.Some? || c.tip.Some?))
  }

  /** A funding locks its task after an account, a refund or review before. */
  predicate Fits(c: Command, funded: set<TaskId>) {
    if c.Fund? then c.task in funded else LocksUnderRow(c) ==> c.task !in funded
  }

  lemma FenceAscends(held: set<Resource>, shared: set<Resource>, funded: set<TaskId>)
    requires Fence !in held + shared
    ensures Ascending([Lock(Fence)], held, shared, funded)
  {
  }

  function Charged(charge: Option<nat>): set<Resource> {
    if charge.None? then {} else {Credential(charge.value)}
  }

  lemma ChargeAscends(charge: Option<nat>, rest: seq<Op>, held: set<Resource>, shared: set<Resource>, funded: set<TaskId>)
    requires forall r <- held + shared :: Level(r, funded) < 3
    requires Ascending(rest, held + Charged(charge), shared, funded)
    ensures Ascending(ChargePart(charge) + rest, held, shared, funded)
  {
    if charge.None? {
      assert ChargePart(charge) + rest == rest && held + Charged(charge) == held;
    } else {
      Climb(Lock(Credential(charge.value)), rest, held, shared, funded);
    }
  }

  /** Two statements on accounts held, then the fence. */
  lemma LastAscend(a: Op, b: Op, held: set<Resource>, shared: set<Resource>, funded: set<TaskId>)
    requires !a.Lock? && !b.Lock? && Account(a.account) in held && Account(b.account) in held && Fence !in held + shared
    ensures Ascending([a, b, Lock(Fence)], held, shared, funded)
  {
    var later := SharedAfter(a, shared);
    FenceAscends(held, SharedAfter(b, later), funded);
    Climb(b, [Lock(Fence)], held, later, funded);
    Climb(a, [b] + [Lock(Fence)], held, shared, funded);
    assert [a, b, Lock(Fence)] == [a] + ([b] + [Lock(Fence)]);
  }

  lemma FundingAscends(c: Command, funded: set<TaskId>)
    requires c.Fund? && Fits(c, funded)
    ensures Ascending(Program(c), {}, {}, funded)
  {
    hide Earlier;
    var (a, t) := (Lock(Account(c.payer)), Lock(Row(c.task)));
    var end := [Read(c.payer), Debit(c.payer, c.amount), Lock(Fence)];
    var most := ChargePart(c.charge) + end;
    var h1 := HeldAfter(a, {});
    var h2 := HeldAfter(t, h1);
    LastAscend(end[0], end[1], h2 + Charged(c.charge), {}, funded);
    ChargeAscends(c.charge, end, h2, {}, funded);
    Climb(t, most, h1, {}, funded);
    Climb(a, [t] + most, {}, {}, funded);
    assert Program(c) == [a] + ([t] + most);
  }

  /** Whichever way the credits go, even back to the source. */
  lemma SendingAscends(c: Command, funded: set<TaskId>)
    requires c.Send?
    ensures Ascending(Program(c), {}, {}, funded)
  {
    hide Before, RefKey;
    EarlierIsOrder(c.source, c.dest, c.source);
    var (p, q) := if Before(RefKey(c.dest), RefKey(c.source)) then (c.dest, c.source) else (c.source, c.dest);
    assert InOrder(p, q);
    var (a, b, read) := (Lock(Account(p)), Lock(Account(q)), Read(c.source));
    var end := [Debit(c.source, c.amount), Credit(c.dest, c.amount), Lock(Fence)];
    var most := ChargePart(c.charge) + end;
    var h1 := HeldAfter(a, {});
    var h2 := HeldAfter(b, h1);
    LastAscend(end[0], end[1], h2 + Charged(c.charge), {}, funded);
    ChargeAscends(c.charge, end, h2, {}, funded);
    Climb(read, most, h2, {}, funded);
    Climb(b, [read] + most, h1, {}, funded);
    Climb(a, [b] + ([read] + most), {}, {}, funded);
    assert Program(c) == [a] + ([b] + ([read] + most));
  }

  lemma CreditingAscends(c: Command, funded: set<TaskId>)
    requires (c.Refund? || c.Grant?) && Fits(c, funded)
    ensures Ascending(Program(c), {}, {}, funded)
  {
    hide Earlier;
    var (p, first) := (Program(c), Target(Program(c)[0]));
    assert p[1..][1..] == [Lock(Fence)];
    FenceAscends(HeldAfter(p[1], HeldAfter(p[0], {})), SharedAfter(p[1], {}), funded);
    assert HeldAfter(p[0], {}) == {first};
    assert Ascending(p[1..], {first}, {}, funded);
  }

  lemma TipAscends(c: Command, held: set<Resource>, shared: set<Resource>, funded: set<TaskId>)
    requires c.Review? && c.tip.Some? && Fence !in held + shared
    requires Account(c.reviewer) in held || Under(held, shared, Account(c.reviewer), funded)
    requires Account(c.worker) in held || (Under(held, shared, Account(c.worker), funded) && InOrder(c.reviewer, c.worker))
    ensures Ascending(TipPart(c) + [Lock(Fence)], held, shared, funded)
  {
    hide Earlier;
    var (r, w) := (Lock(Account(c.reviewer)), Lock(Account(c.worker)));
    var (read, debit, credit) := (Read(c.reviewer), Debit(c.reviewer, c.tip.value), Credit(c.worker, c.tip.value));
    var (h1, h2) := (held + {r.resource}, held + {r.resource} + {w.resource});
    var end := [debit, credit, Lock(Fence)];
    LastAscend(debit, credit, h2, shared, funded);
    Climb(w, end, h1, shared, funded);
    Climb(read, [w] + end, h1, shared, funded);
    Climb(r, [read] + ([w] + end), held, shared, funded);
    assert TipPart(c) + [Lock(Fence)] == [r] + ([read] + ([w] + end));
  }

  /** What a review holds when it comes to its tip. */
  function HeldAtTip(c: Command): set<Resource>
    requires c.Review?
  {
    {Row(c.task)} + (if c.paid.Some? then {Account(c.worker)} else {}) + Charged(c.charge)
  }

  function SharedAtTip(c: Command): set<Resource>
    requires c.Review?
  {
    (if c.paid.Some? then {Account(c.worker)} else {}) + (if Returns(c) then {Account(c.funder)} else {})
  }

  lemma EndAscends(c: Command, funded: set<TaskId>)
    requires c.Review? && Orderly(c) && Fits(c, funded)
    ensures Ascending(TipPart(c) + [Lock(Fence)], HeldAtTip(c), SharedAtTip(c), funded)
  {
    hide Earlier;
    if c.tip.None? {
      assert TipPart(c) + [Lock(Fence)] == [Lock(Fence)];
      FenceAscends(HeldAtTip(c), SharedAtTip(c), funded);
    } else {
      TipAscends(c, HeldAtTip(c), SharedAtTip(c), funded);
    }
  }

  /** Payout and charge reach the tip. */
  lemma PayoutAscends(c: Command, rest: seq<Op>, funded: set<TaskId>)
    requires c.Review? && Orderly(c) && Fits(c, funded)
    requires Ascending(rest, HeldAtTip(c), SharedAtTip(c), funded)
    ensures Ascending(PayoutPart(c) + (ChargePart(c.charge) + rest), {Row(c.task)}, {}, funded)
  {
    hide Earlier;
    var (row, w, f) := (Row(c.task), Account(c.worker), Account(c.funder));
    var most := ChargePart(c.charge) + rest;
    var none: set<Resource> := {};
    if c.paid.None? {
      assert {row} + none == {row} && none + none == none && PayoutPart(c) + most == most;
      ChargeAscends(c.charge, rest, {row}, {}, funded);
    } else {
      var (lock, pay) := (Lock(w), Credit(c.worker, c.paid.value));
      assert none + {w} == {w} && {w} + none == {w};
      ChargeAscends(c.charge, rest, {row} + {w}, SharedAtTip(c), funded);
      if Returns(c) {
        var back := Credit(c.funder, c.rest);
        Climb(back, most, {row} + {w}, {w}, funded);
        Climb(pay, [back] + most, {row} + {w}, {}, funded);
        Climb(lock, [pay] + ([back] + most), {row}, {}, funded);
        assert PayoutPart(c) + most == [lock] + ([pay] + ([back] + most));
      } else {
        Climb(pay, most, {row} + {w}, {}, funded);
        Climb(lock, [pay] + most, {row}, {}, funded);
        assert PayoutPart(c) + most == [lock] + ([pay] + most);
      }
    }
  }

  lemma ReviewAscends(c: Command, funded: set<TaskId>)
    requires c.Review? && Orderly(c) && Fits(c, funded)
    ensures Ascending(Program(c), {}, {}, funded)
  {
    hide Orderly, Ascending, Fits;
    var end := TipPart(c) + [Lock(Fence)];
    EndAscends(c, funded);
    PayoutAscends(c, end, funded);
    var none: set<Resource> := {};
    assert none + {Row(c.task)} == {Row(c.task)};
    Climb(Lock(Row(c.task)), PayoutPart(c) + (ChargePart(c.charge) + end), {}, {}, funded);
    assert Program(c) == [Lock(Row(c.task))] + (PayoutPart(c) + (ChargePart(c.charge) + end));
  }

  lemma CommandAscends(c: Command, funded: set<TaskId>)
    requires Orderly(c) && Fits(c, funded)
    ensures Ascending(Program(c), {}, {}, funded)
  {
    hide Ascending;
    match c
    case Fund(_, _, _, _) => FundingAscends(c, funded);
    case Send(_, _, _, _) => SendingAscends(c, funded);
    case Review(_, _, _, _, _, _, _, _) => ReviewAscends(c, funded);
    case _ => CreditingAscends(c, funded);
  }

  // ---- no circular wait between commands that keep it ----

  predicate ThreadAscends(t: Thread, funded: set<TaskId>) {
    Ascending(t.todo, t.held, t.shared, funded) && (t.done ==> t == FINISHED)
  }

  ghost predicate AllAscend(s: State, funded: set<TaskId>) {
    forall i :: 0 <= i < |s.threads| ==> ThreadAscends(s.threads[i], funded)
  }

  lemma NextAscends(s: State, turn: Turn, funded: set<TaskId>)
    requires AllAscend(s, funded)
    ensures AllAscend(Next(s, turn), funded) && |Next(s, turn).threads| == |s.threads|
  {
    hide Granted, Under, WaitsFor;
    var i := turn.thread;
    if i < |s.threads| && !s.threads[i].done {
      var t := s.threads[i];
      assert ThreadAscends(t, funded);
      assert ThreadAscends(FINISHED, funded);
    }
  }

  lemma {:induction false} AscendingKept(s: State, schedule: seq<Turn>, funded: set<TaskId>)
    requires AllAscend(s, funded)
    ensures AllAscend(Execute(s, schedule), funded) && |Execute(s, schedule).threads| == |s.threads|
  {
    if schedule != [] {
      AscendingKept(s, schedule[..|schedule| - 1], funded);
      NextAscends(Execute(s, schedule[..|schedule| - 1]), schedule[|schedule| - 1], funded);
    }
  }

  /** Threads that each need a row. */
  predicate Needy(s: State, group: set<nat>) {
    forall i <- group :: i < |s.threads| && s.threads[i].todo != [] && !s.threads[i].todo[0].Read?
  }

  function Need(s: State, i: nat): Resource
    requires i < |s.threads| && s.threads[i].todo != [] && !s.threads[i].todo[0].Read?
  {
    Target(s.threads[i].todo[0])
  }

  /** Among waiting threads one waits for a resource none of the others waits beyond. */
  lemma {:induction false} HighestWait(s: State, group: set<nat>, funded: set<TaskId>) returns (top: nat)
    requires group != {} && Needy(s, group)
    ensures top in group && forall i <- group :: !Below(Need(s, top), Need(s, i), funded)
    decreases group
  {
    hide Below, Need;
    var i :| i in group;
    BelowIsStrict(Need(s, i), Fence, Fence, funded);
    if group == {i} {
      return i;
    }
    top := HighestWait(s, group - {i}, funded);
    if Below(Need(s, top), Need(s, i), funded) {
      forall j | j in group ensures !Below(Need(s, i), Need(s, j), funded) {
        BelowIsStrict(Need(s, top), Need(s, i), Need(s, j), funded);
        assert j == i || j in group - {i};
      }
      top := i;
    }
  }

  /** Whoever waits for a blocked thread waits for less than that thread does. */
  lemma WaitsClimb(s: State, i: nat, j: nat, funded: set<TaskId>)
    requires AllAscend(s, funded) && i < |s.threads| && j < |s.threads| && WaitsFor(s, i, j) && Blocked(s, j)
    ensures Below(Need(s, i), Need(s, j), funded)
  {
    assert ThreadAscends(s.threads[j], funded);
  }

  /** In no group of threads does every one wait for another of the group: there is no circular wait. */
  lemma NoCircularWait(s: State, group: set<nat>, funded: set<TaskId>)
    requires AllAscend(s, funded) && group != {} && forall i <- group :: i < |s.threads|
    ensures exists i <- group :: forall j <- group :: !WaitsFor(s, i, j)
  {
    if forall i <- group :: Blocked(s, i) {
      hide Below, Ascending;
      var top := HighestWait(s, group, funded);
      forall j | j in group ensures !WaitsFor(s, top, j) {
        if WaitsFor(s, top, j) { WaitsClimb(s, top, j, funded); }
      }
    }
  }

  lemma SomeoneCanStep(s: State, i: nat, funded: set<TaskId>)
    requires AllAscend(s, funded) && i < |s.threads| && !s.threads[i].done
    ensures exists j :: 0 <= j < |s.threads| && !s.threads[j].done && !Blocked(s, j)
  {
    hide Ascending;
    var unfinished := set i: nat | i < |s.threads| && !s.threads[i].done;
    assert i in unfinished;
    NoCircularWait(s, unfinished, funded);
    var j :| j in unfinished && forall k <- unfinished :: !WaitsFor(s, j, k);
    forall k: nat | k < |s.threads| ensures !WaitsFor(s, j, k) {
      assert ThreadAscends(s.threads[k], funded);
      assert k in unfinished || s.threads[k] == FINISHED;
    }
  }

  /** Every thread of a group waits for another of the group. */
  ghost predicate AllWait(s: State, group: set<nat>) {
    && group != {} && (forall i <- group :: i < |s.threads|)
    && (forall i <- group :: exists j <- group :: WaitsFor(s, i, j))
  }

  ghost predicate CircularWait(s: State) {
    exists group :: AllWait(s, group)
  }

  /** Some schedule of these commands ends in a circular wait. */
  ghost predicate MayCircle(committed: seq<Post>, commands: seq<Command>) {
    exists schedule :: CircularWait(Execute(Launch(committed, commands), schedule))
  }

  /** Each command keeps the order of the locks, taken together with the others. */
  predicate AllKeep(commands: seq<Command>, funded: set<TaskId>) {
    forall c <- commands :: Orderly(c) && Fits(c, funded)
  }

  lemma LaunchAscends(committed: seq<Post>, commands: seq<Command>, funded: set<TaskId>)
    requires AllKeep(commands, funded)
    ensures AllAscend(Launch(committed, commands), funded)
  {
    hide Ascending, Program, Orderly, Fits;
    forall i | 0 <= i < |commands| ensures ThreadAscends(Fresh(Program(commands[i])), funded) {
      CommandAscends(commands[i], funded);
    }
  }

  /** No task is funded and refunded, or funded and reviewed with a payout or tip, at once. */
  predicate Compatible(commands: seq<Command>) {
    forall c <- commands, d <- commands :: c.Fund? && LocksUnderRow(d) ==> c.task != d.task
  }

  lemma CompatibleFit(commands: seq<Command>)
    requires Compatible(commands) && forall c <- commands :: Orderly(c)
    ensures AllKeep(commands, set c <- commands | c.Fund? :: c.task)
  {
  }

  /** No one waits in a circle and, unless all are done, one can take its next step. */
  ghost predicate Lively(e: State) {
    && !CircularWait(e)
    && ((exists i :: 0 <= i < |e.threads| && !e.threads[i].done) ==> exists j :: 0 <= j < |e.threads| && !e.threads[j].done && !Blocked(e, j))
  }

  lemma KeepersAreLively(committed: seq<Post>, commands: seq<Command>, schedule: seq<Turn>, funded: set<TaskId>)
    requires AllKeep(commands, funded)
    ensures Lively(Execute(Launch(committed, commands), schedule))
  {
    hide Execute, AllAscend, WaitsFor, Blocked, AllKeep;
    LaunchAscends(committed, commands, funded);
    AscendingKept(Launch(committed, commands), schedule, funded);
    var e := Execute(Launch(committed, commands), schedule);
    if CircularWait(e) {
      var group :| AllWait(e, group);
      NoCircularWait(e, group, funded);
      assert false;
    }
    if i :| 0 <= i < |e.threads| && !e.threads[i].done { SomeoneCanStep(e, i, funded); }
  }

  /** Whatever any number of orderly and compatible commands, in any mix, have done so far, they never deadlock. */
  lemma OrderlyNeverDeadlock(committed: seq<Post>, commands: seq<Command>, schedule: seq<Turn>)
    requires Compatible(commands) && forall c <- commands :: Orderly(c)
    ensures Lively(Execute(Launch(committed, commands), schedule))
  {
    hide Lively, AllKeep, Compatible;
    CompatibleFit(commands);
    KeepersAreLively(committed, commands, schedule, set c <- commands | c.Fund? :: c.task);
  }

  /** Sends and grants alone never deadlock, whichever way the credits go and whatever credentials they draw on. */
  lemma SendsNeverDeadlock(committed: seq<Post>, commands: seq<Command>, schedule: seq<Turn>)
    requires forall c <- commands :: c.Send? || c.Grant?
    ensures Lively(Execute(Launch(committed, commands), schedule))
  {
    OrderlyNeverDeadlock(committed, commands, schedule);
  }

  // ---- and one around every command that does not ----

  function LocksOf(ops: seq<Op>): set<Resource> {
    set op <- ops | op.Lock? :: op.resource
  }

  function SharesOf(ops: seq<Op>): set<Resource> {
    set op <- ops | op.Debit? || op.Credit? :: Account(op.account)
  }

  lemma OneMore(ops: seq<Op>, k: nat)
    requires k < |ops|
    ensures LocksOf(ops[..k + 1]) == HeldAfter(ops[k], LocksOf(ops[..k]))
    ensures SharesOf(ops[..k + 1]) == SharedAfter(ops[k], SharesOf(ops[..k]))
  {
    assert ops[..k + 1] == ops[..k] + [ops[k]];
  }

  /** A program comes to a lock that it lacks with nothing to debit before. */
  predicate Asks(p: seq<Op>, m: nat) {
    && m < |p| && (forall k :: 0 <= k < m ==> !p[k].Debit?)
    && !Granted(p[m], LocksOf(p[..m]), SharesOf(p[..m]))
  }

  /** A program that has come that far stands in a statement's way. */
  predicate Stops(p: seq<Op>, m: nat, op: Op)
    requires m <= |p|
  {
    Clashes(op, LocksOf(p[..m]), SharesOf(p[..m]))
  }

  /** One of two threads runs on while nothing of the other's is in its way. */
  lemma {:induction false} RunsTo(s: State, schedule: seq<Turn>, e: State, i: nat, p: seq<Op>, m: nat) returns (schedule': seq<Turn>, e': State)
    requires e == Execute(s, schedule) && |e.threads| == 2 && i < 2 && e.threads[i] == Fresh(p) && m <= |p|
    requires forall k :: 0 <= k < m ==> !p[k].Debit? && !Clashes(p[k], e.threads[1 - i].held, e.threads[1 - i].shared)
    ensures e' == Execute(s, schedule') && |e'.threads| == 2 && e'.threads[1 - i] == e.threads[1 - i]
    ensures !e'.threads[i].done && e'.threads[i].todo == p[m..] && e'.threads[i].held == LocksOf(p[..m]) && e'.threads[i].shared == SharesOf(p[..m])
    decreases m
  {
    hide Execute, Next, Granted, Clashes;
    schedule', e' := schedule, e;
    if m > 0 {
      schedule', e' := RunsTo(s, schedule, e, i, p, m - 1);
      assert p[m - 1..][1..] == p[m..] && e'.threads[i].todo[0] == p[m - 1];
      OneMore(p, m - 1);
      GoesThrough(e', i);
      schedule', e' := Extended(s, schedule', e', Turn(i, false));
    }
  }

  /** Two commands that each come to ask for what the other has by then wait for each other for good. */
  lemma Meet(committed: seq<Post>, c: Command, m: nat, o: Command, n: nat)
    requires Asks(Program(c), m) && Asks(Program(o), n)
    requires forall k :: 0 <= k < m ==> !Stops(Program(o), n, Program(c)[k])
    requires Stops(Program(o), n, Program(c)[m]) && Stops(Program(c), m, Program(o)[n])
    ensures MayCircle(committed, [c, o])
  {
    hide Execute, Next, Program, Granted, Clashes, CircularWait, LocksOf, SharesOf;
    var (p, q) := (Program(c), Program(o));
    var s := Launch(committed, [c, o]);
    Begun(s);
    NothingClashes();
    var d1, s1 := RunsTo(s, [], s, 1, q, n);
    var d2, s2 := RunsTo(s, d1, s1, 0, p, m);
    assert s2.threads[0].todo[0] == p[m] && s2.threads[1].todo[0] == q[n];
    MutualIsCircular(s2);
  }

  lemma NothingClashes()
    ensures forall op :: !Clashes(op, {}, {})
  {
  }

  lemma MutualIsCircular(e: State)
    requires |e.threads| == 2 && WaitsFor(e, 0, 1) && WaitsFor(e, 1, 0)
    ensures CircularWait(e)
  {
    var group: set<nat> := {0, 1};
    assert forall i <- group :: i == 0 || i == 1;
    assert AllWait(e, group);
  }

  // The four kinds of command to meet.

  lemma SendAsks(first: Party, second: Party)
    requires Earlier(first, second)
    ensures var q := Program(Send(first, second, 1, None));
      Asks(q, 1) && q[1] == Lock(Account(second)) && LocksOf(q[..1]) == {Account(first)} && SharesOf(q[..1]) == {}
  {
    hide Before, RefKey;
    EarlierIsOrder(first, second, first);
    var q := Program(Send(first, second, 1, None));
    assert q[..1] == [Lock(Account(first))];
  }

  lemma ChargedSendAsks(source: Party, dest: Party, k: nat)
    requires source != dest
    ensures var q := Program(Send(source, dest, 1, Some(k)));
      Asks(q, 3) && q[3] == Lock(Credential(k)) && LocksOf(q[..3]) == {Account(source), Account(dest)} && SharesOf(q[..3]) == {}
  {
    hide Before, RefKey;
    var q := Program(Send(source, dest, 1, Some(k)));
    assert q[..3] == [q[0], q[1], Read(source)];
  }

  lemma FundAsks(payer: Party, task: TaskId, n: CreditAmount, charge: Option<nat>)
    ensures var q := Program(Fund(payer, task, n, charge));
      Asks(q, 1) && q[1] == Lock(Row(task)) && q[0] == Lock(Account(payer)) && LocksOf(q[..1]) == {Account(payer)} && SharesOf(q[..1]) == {}
  {
    var q := Program(Fund(payer, task, n, charge));
    assert q[..1] == [Lock(Account(payer))];
  }

  lemma RefundAsks(task: TaskId, funder: Party, n: CreditAmount)
    ensures var q := Program(Refund(task, funder, n));
      Asks(q, 1) && q[1] == Credit(funder, n) && q[0] == Lock(Row(task)) && LocksOf(q[..1]) == {Row(task)} && SharesOf(q[..1]) == {}
  {
    var q := Program(Refund(task, funder, n));
    assert q[..1] == [Lock(Row(task))];
  }

  // Where a review can be met: at its payout, its return and the two locks of its tip.

  function TipAt(c: Command): nat
    requires c.Review?
  {
    1 + |PayoutPart(c)| + |ChargePart(c.charge)|
  }

  lemma AtTip(c: Command)
    requires c.Review? && c.tip.Some?
    ensures var (p, m) := (Program(c), TipAt(c));
      && m + 2 < |p| && p[m] == Lock(Account(c.reviewer)) && p[m + 1].Read? && p[m + 2] == Lock(Account(c.worker))
      && LocksOf(p[..m]) == HeldAtTip(c) && SharesOf(p[..m]) == SharedAtTip(c)
      && forall k :: 0 <= k < m ==> (p[k].Lock? && Target(p[k]) in HeldAtTip(c)) || (p[k].Credit? && Target(p[k]) in SharedAtTip(c))
  {
    var (p, m) := (Program(c), TipAt(c));
    var start := [Lock(Row(c.task))] + PayoutPart(c) + ChargePart(c.charge);
    assert p == start + (TipPart(c) + [Lock(Fence)]) && |start| == m;
    assert p[..m] == start;
    StartLocks(c, start);
    forall k | 0 <= k < m ensures (p[k].Lock? && Target(p[k]) in HeldAtTip(c)) || (p[k].Credit? && Target(p[k]) in SharedAtTip(c)) {
      assert p[k] == start[k] && start[k] in start;
    }
  }

  lemma StartLocks(c: Command, start: seq<Op>)
    requires c.Review? && start == [Lock(Row(c.task))] + PayoutPart(c) + ChargePart(c.charge)
    ensures LocksOf(start) == HeldAtTip(c) && SharesOf(start) == SharedAtTip(c) && forall op <- start :: op.Lock? || op.Credit?
  {
    assert start[0] == Lock(Row(c.task));
    if c.paid.Some? {
      assert start[1] == Lock(Account(c.worker)) && start[2] == Credit(c.worker, c.paid.value);
      if Returns(c) { assert start[3] == Credit(c.funder, c.rest); }
    }
    if c.charge.Some? { assert start[|start| - 1] == Lock(Credential(c.charge.value)); }
  }

  /** A review that lacks the reviewer's lock at its tip meets a command that has it and asks for what the review has. */
  lemma TipMeets(committed: seq<Post>, c: Command, o: Command, n: nat)
    requires c.Review? && c.tip.Some? && Asks(Program(o), n)
    requires Account(c.reviewer) !in HeldAtTip(c)
    requires var (locks, shares) := (LocksOf(Program(o)[..n]), SharesOf(Program(o)[..n]));
      Account(c.reviewer) in locks + shares && locks !! HeldAtTip(c) + SharedAtTip(c) && shares !! HeldAtTip(c)
    requires Clashes(Program(o)[n], HeldAtTip(c), SharedAtTip(c))
    ensures MayCircle(committed, [c, o])
  {
    hide MayCircle, Program, LocksOf, SharesOf, HeldAtTip, SharedAtTip;
    AtTip(c);
    Meet(committed, c, TipAt(c), o, n);
  }

  /** A review that comes to lock for update the account whose lock its return shares. */
  predicate Upgrades(c: Command) {
    c.Review? && Returns(c) && c.tip.Some? && c.funder == c.reviewer && c.worker != c.reviewer
  }

  /**
   Others that keep the order of the locks themselves. For a review that locks
   anew the account its return shares, others like it are let in too.
   */
  predicate Company(c: Command, others: seq<Command>, funded: set<TaskId>) {
    forall o <- others :: Fits(o, funded) && (Orderly(o) || (Upgrades(c) && Upgrades(o)))
  }

  /** A command that belongs in the company and can come to wait for c while c waits for it. */
  ghost predicate Meetable(committed: seq<Post>, c: Command, o: Command, funded: set<TaskId>) {
    Company(c, [o], funded) && MayCircle(committed, [c, o])
  }

  /** A tipping review that has locked an account after the reviewer's meets a send between the two. */
  lemma TipMeetsSend(committed: seq<Post>, c: Command, y: Party, funded: set<TaskId>)
    requires c.Review? && c.tip.Some? && Earlier(c.reviewer, y)
    requires Account(c.reviewer) !in HeldAtTip(c) + SharedAtTip(c) && Account(y) in HeldAtTip(c) + SharedAtTip(c)
    ensures Meetable(committed, c, Send(c.reviewer, y, 1, None), funded)
  {
    hide MayCircle, Program, LocksOf, SharesOf, HeldAtTip, SharedAtTip, Asks, Earlier;
    SendAsks(c.reviewer, y);
    TipMeets(committed, c, Send(c.reviewer, y, 1, None), 1);
  }

  /** One that has charged a credential meets a send through it from the reviewer to anyone else. */
  lemma TipMeetsCredential(committed: seq<Post>, c: Command, z: Party, funded: set<TaskId>)
    requires c.Review? && c.tip.Some? && c.charge.Some? && Account(c.reviewer) !in HeldAtTip(c) + SharedAtTip(c)
    requires Account(z) !in HeldAtTip(c) + SharedAtTip(c) && z != c.reviewer
    ensures Meetable(committed, c, Send(c.reviewer, z, 1, c.charge), funded)
  {
    hide MayCircle, Program, LocksOf, SharesOf, Asks, Earlier;
    ChargedSendAsks(c.reviewer, z, c.charge.value);
    TipMeets(committed, c, Send(c.reviewer, z, 1, c.charge), 3);
  }

  /** Two that share the reviewer's account by what they return come to ask for all of it. */
  lemma TipMeetsTip(committed: seq<Post>, c: Command, t: TaskId, z: Party, funded: set<TaskId>)
    requires Upgrades(c) && t !in funded && t != c.task && z != c.worker && z != c.reviewer
    ensures Meetable(committed, c, c.(task := t, worker := z, charge := None), funded)
  {
    hide MayCircle, Program, LocksOf, SharesOf;
    var o := c.(task := t, worker := z, charge := None);
    AtTip(o);
    TipMeets(committed, c, o, TipAt(o));
  }

  /** A review that returns to an earlier account than it pays meets a send between the two. */
  lemma ReturnMeetsSend(committed: seq<Post>, c: Command, funded: set<TaskId>)
    requires Returns(c) && Earlier(c.funder, c.worker)
    ensures Meetable(committed, c, Send(c.funder, c.worker, 1, None), funded)
  {
    hide MayCircle, Earlier;
    EarlierIsOrder(c.worker, c.worker, c.worker);
    SendAsks(c.funder, c.worker);
    var p := Program(c);
    assert p[..3] == [Lock(Row(c.task)), Lock(Account(c.worker)), Credit(c.worker, c.paid.value)] && p[3] == Credit(c.funder, c.rest);
    assert p[..3][1] == Lock(Account(c.worker));
    hide Program;
    Meet(committed, c, 3, Send(c.funder, c.worker, 1, None), 1);
  }

  /** A review that only tips and locks a later account first meets a send between the two. */
  lemma TipOnlyMeetsSend(committed: seq<Post>, c: Command, funded: set<TaskId>)
    requires c.Review? && c.paid.None? && c.tip.Some? && Earlier(c.worker, c.reviewer)
    ensures Meetable(committed, c, Send(c.worker, c.reviewer, 1, None), funded)
  {
    hide MayCircle, Program, LocksOf, SharesOf, Earlier;
    EarlierIsOrder(c.worker, c.worker, c.worker);
    SendAsks(c.worker, c.reviewer);
    AtTip(c);
    var m := TipAt(c);
    OneMore(Program(c), m);
    OneMore(Program(c), m + 1);
    Meet(committed, c, m + 2, Send(c.worker, c.reviewer, 1, None), 1);
  }

  /** The account a command locks first under its task's row, and when. */
  lemma UnderRow(c: Command) returns (m: nat, a: Party)
    requires LocksUnderRow(c)
    ensures var p := Program(c);
      && Asks(p, m) && Stops(p, m, Lock(Row(c.task))) && !p[m].Read? && Target(p[m]) == Account(a)
      && forall k :: 0 <= k < m ==> p[k].Lock? && !p[k].resource.Account?
  {
    var p := Program(c);
    assert p[0] == Lock(Row(c.task));
    if c.Refund? {
      RefundAsks(c.task, c.funder, c.amount);
      return 1, c.funder;
    } else if c.paid.Some? {
      assert p[1] == Lock(Account(c.worker)) && p[..1] == [Lock(Row(c.task))];
      assert p[..1][0] in p[..1];
      return 1, c.worker;
    } else {
      AtTip(c);
      return TipAt(c), c.reviewer;
    }
  }

  /** A command that locks an account under its task's row meets a funding of the task from that account. */
  lemma MeetsFunding(committed: seq<Post>, c: Command, funded: set<TaskId>) returns (o: Command)
    requires LocksUnderRow(c) && c.task in funded
    ensures Meetable(committed, c, o, funded)
  {
    hide MayCircle, Program, LocksOf, SharesOf, Asks;
    var m, a := UnderRow(c);
    FundAsks(a, c.task, 1, None);
    o := Fund(a, c.task, 1, None);
    assert Asks(Program(c), m);
    Meet(committed, c, m, o, 1);
  }

  /** And a funding meets a refund of its task to the payer. */
  lemma FundingMeetsRefund(committed: seq<Post>, c: Command, funded: set<TaskId>)
    requires c.Fund? && c.task !in funded
    ensures Meetable(committed, c, Refund(c.task, c.payer, 1), funded)
  {
    hide MayCircle, Program, LocksOf, SharesOf;
    FundAsks(c.payer, c.task, c.amount, c.charge);
    RefundAsks(c.task, c.payer, 1);
    Meet(committed, c, 1, Refund(c.task, c.payer, 1), 1);
  }

  lemma {:induction false} Above(used: set<nat>) returns (n: nat)
    ensures forall u <- used :: u < n
  {
    n := 0;
    if u: nat :| u in used {
      n := Above(used - {u});
      forall v | v in used ensures v < n || v <= u {
        assert v == u || v in used - {u};
      }
      n := if n <= u then u + 1 else n;
    }
  }

  lemma SomeoneElse(a: Party, b: Party, c: Party) returns (z: Party)
    ensures z != a && z != b && z != c
  {
    z := if User(0) !in {a, b, c} then User(0) else if User(1) !in {a, b, c} then User(1) else if User(2) !in {a, b, c} then User(2) else User(3);
  }

  lemma DisorderlyReviewMeets(committed: seq<Post>, c: Command, funded: set<TaskId>) returns (o: Command)
    requires !Orderly(c)
    ensures Meetable(committed, c, o, funded)
  {
    hide Meetable, Earlier;
    EarlierIsOrder(c.worker, c.funder, c.reviewer);
    EarlierIsOrder(c.worker, c.reviewer, c.funder);
    EarlierIsOrder(c.funder, c.reviewer, c.worker);
    var z := SomeoneElse(c.worker, c.funder, c.reviewer);
    if Returns(c) && Earlier(c.funder, c.worker) {
      ReturnMeetsSend(committed, c, funded);
      o := Send(c.funder, c.worker, 1, None);
    } else if c.paid.None? && c.charge.None? {
      TipOnlyMeetsSend(committed, c, funded);
      o := Send(c.worker, c.reviewer, 1, None);
    } else if Upgrades(c) {
      var t := Above(funded + {c.task});
      TipMeetsTip(committed, c, t, z, funded);
      o := c.(task := t, worker := z, charge := None);
    } else if c.charge.Some? {
      TipMeetsCredential(committed, c, z, funded);
      o := Send(c.reviewer, z, 1, c.charge);
    } else {
      var y := if Earlier(c.reviewer, c.worker) then c.worker else c.funder;
      TipMeetsSend(committed, c, y, funded);
      o := Send(c.reviewer, y, 1, None);
    }
  }

  lemma DisorderlyMeets(committed: seq<Post>, c: Command, funded: set<TaskId>) returns (o: Command)
    requires !(Orderly(c) && Fits(c, funded))
    ensures Company(c, [o], funded) && MayCircle(committed, [c] + [o])
  {
    hide MayCircle;
    if !Orderly(c) {
      o := DisorderlyReviewMeets(committed, c, funded);
    } else if c.Fund? {
      FundingMeetsRefund(committed, c, funded);
      o := Refund(c.task, c.payer, 1);
    } else {
      o := MeetsFunding(committed, c, funded);
    }
    assert [c] + [o] == [c, o];
  }

  lemma UpgradesIsDisorderly(c: Command)
    requires Upgrades(c)
    ensures !Orderly(c)
  {
    hide Earlier;
    EarlierIsOrder(c.reviewer, c.reviewer, c.reviewer);
  }

  /**
   Whatever tasks are open to funding: among commands that keep the order of the
   locks, one can be part of a circular wait if and only if it breaks the order
   itself, by its accounts and its credential or by its task.
   */
  lemma DeadlocksIffDisorderly(committed: seq<Post>, c: Command, funded: set<TaskId>)
    ensures (exists others :: Company(c, others, funded) && MayCircle(committed, [c] + others)) <==> !(Orderly(c) && Fits(c, funded))
  {
    hide MayCircle, Orderly, Fits, Upgrades, AllKeep;
    if Orderly(c) && Fits(c, funded) {
      forall others | Company(c, others, funded) ensures !MayCircle(committed, [c] + others) {
        if Upgrades(c) { UpgradesIsDisorderly(c); }
        assert AllKeep([c] + others, funded) by { KeepTogether(c, others, funded); }
        KeepersCannotCircle(committed, [c] + others, funded);
      }
    } else {
      var o := DisorderlyMeets(committed, c, funded);
    }
  }

  lemma KeepTogether(c: Command, others: seq<Command>, funded: set<TaskId>)
    requires Orderly(c) && Fits(c, funded) && forall o <- others :: Orderly(o) && Fits(o, funded)
    ensures AllKeep([c] + others, funded)
  {
  }

  lemma KeepersCannotCircle(committed: seq<Post>, commands: seq<Command>, funded: set<TaskId>)
    requires AllKeep(commands, funded)
    ensures !MayCircle(committed, commands)
  {
    hide AllKeep;
    forall schedule ensures !CircularWait(Execute(Launch(committed, commands), schedule)) {
      KeepersAreLively(committed, commands, schedule, funded);
    }
  }

  /** Of two people who review, pay and tip each other one is out of order. */
  lemma CrossingTipsDisagree(a: Party, b: Party, t: TaskId, u: TaskId, n: CreditAmount, tip: CreditAmount)
    requires a != b
    ensures Orderly(Review(t, b, Some(n), a, 0, None, a, Some(tip))) <==> !Orderly(Review(u, a, Some(n), b, 0, None, b, Some(tip)))
  {
    hide Earlier;
    EarlierIsOrder(a, b, a);
  }

  /** And the two reviews can wait on each other for good. */
  lemma CrossingTipsDeadlock(a: Party, b: Party, t: TaskId, u: TaskId, n: CreditAmount, tip: CreditAmount, committed: seq<Post>)
    requires a != b && t != u
    ensures MayCircle(committed, [Review(t, b, Some(n), a, 0, None, a, Some(tip)), Review(u, a, Some(n), b, 0, None, b, Some(tip))])
  {
    hide MayCircle, Program, LocksOf, SharesOf;
    var o := Review(u, a, Some(n), b, 0, None, b, Some(tip));
    AtTip(o);
    TipMeets(committed, Review(t, b, Some(n), a, 0, None, a, Some(tip)), o, TipAt(o));
  }
}
