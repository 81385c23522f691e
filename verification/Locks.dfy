/**
 The row locks under the economy. Transactions are threads of statements that
 interleave freely: locks are held to the end, balances are read as committed
 rows plus the thread's own, and any thread may roll back at any point. Inserting
 an entry checks its foreign key, which shares the lock on the account's row with
 every other such check and only excludes those who lock the row for update. The
 programs are the statements by which the commands that move credits lock
 accounts, tasks, credentials and the fence and read and write balances, in their
 order.
 */
module Locks {
  import opened Prelude

  datatype Resource = Account(owner: Party) | Row(task: TaskId) | Credential(id: nat) | Fence

  datatype Op =
    | Lock(resource: Resource)
    | Read(account: Party)
    | Debit(account: Party, amount: CreditAmount)
    | Credit(account: Party, amount: CreditAmount)

  datatype Post = Post(account: Party, amount: int)

  /** `seen` is what the thread knows of balances it read; `pending` are its uncommitted rows. */
  datatype Thread = Thread(todo: seq<Op>, held: set<Resource>, shared: set<Resource>, seen: map<Party, int>, pending: seq<Post>, done: bool)

  datatype State = State(committed: seq<Post>, threads: seq<Thread>)

  /** Whose turn it is, and whether it rolls back instead of going on. */
  datatype Turn = Turn(thread: nat, rollback: bool)

  function Sum(posts: seq<Post>, a: Party): int {
    if posts == [] then 0
    else Sum(posts[..|posts| - 1], a) + if posts[|posts| - 1].account == a then posts[|posts| - 1].amount else 0
  }

  const FINISHED := Thread([], {}, {}, map[], [], true)

  function Fresh(program: seq<Op>): Thread {
    Thread(program, {}, {}, map[], [], false)
  }

  /** The row a statement locks: for update, or shared by the entry it inserts. */
  function Target(op: Op): Resource
    requires !op.Read?
  {
    if op.Lock? then op.resource else Account(op.account)
  }

  function HeldAfter(op: Op, held: set<Resource>): set<Resource> {
    if op.Lock? then held + {op.resource} else held
  }

  function SharedAfter(op: Op, shared: set<Resource>): set<Resource> {
    if op.Debit? || op.Credit? then shared + {Account(op.account)} else shared
  }

  /** What a thread holds itself it can lock again without waiting; a shared lock is not enough to lock for update. */
  predicate Granted(op: Op, held: set<Resource>, shared: set<Resource>) {
    op.Read? || Target(op) in held || (!op.Lock? && Target(op) in shared)
  }

  /** The locks of another thread that a statement cannot go along with. */
  predicate Clashes(op: Op, held: set<Resource>, shared: set<Resource>) {
    !op.Read? && (Target(op) in held || (op.Lock? && Target(op) in shared))
  }

  /** Thread i needs a lock that thread j's locks keep from it. */
  predicate WaitsFor(s: State, i: nat, j: nat)
    requires i < |s.threads| && j < |s.threads|
  {
    var t := s.threads[i];
    && !t.done && t.todo != [] && !Granted(t.todo[0], t.held, t.shared)
    && i != j && Clashes(t.todo[0], s.threads[j].held, s.threads[j].shared)
  }

  predicate Blocked(s: State, i: nat)
    requires i < |s.threads|
  {
    exists j :: 0 <= j < |s.threads| && WaitsFor(s, i, j)
  }

  /** What a statement does to its thread; a debit the balance does not cover is refused, which rolls back. */
  function Result(committed: seq<Post>, t: Thread): Thread
    requires !t.done && t.todo != []
  {
    var op := t.todo[0];
    var rest := t.(todo := t.todo[1..], held := HeldAfter(op, t.held), shared := SharedAfter(op, t.shared));
    match op
    case Lock(r) => rest
    case Read(a) => rest.(seen := t.seen[a := Sum(committed, a) + Sum(t.pending, a)])
    case Debit(a, n) =>
      if a !in t.seen || t.seen[a] < n then FINISHED
      else rest.(seen := t.seen[a := t.seen[a] - n], pending := t.pending + [Post(a, -(n as int))])
    case Credit(a, n) => rest.(pending := t.pending + [Post(a, n)])
  }

  /** One statement of an unfinished thread, or its commit; a blocked thread waits. */
  function Advance(s: State, i: nat): State
    requires i < |s.threads| && !s.threads[i].done
  {
    var t := s.threads[i];
    if t.todo == [] then State(s.committed + t.pending, s.threads[i := FINISHED])
    else if Blocked(s, i) then s
    else s.(threads := s.threads[i := Result(s.committed, t)])
  }

  function Next(s: State, turn: Turn): State {
    if turn.thread >= |s.threads| || s.threads[turn.thread].done then s
    else if turn.rollback then s.(threads := s.threads[turn.thread := FINISHED])
    else Advance(s, turn.thread)
  }

  function Execute(s: State, schedule: seq<Turn>): State {
    if schedule == [] then s
    else Next(Execute(s, schedule[..|schedule| - 1]), schedule[|schedule| - 1])
  }

  lemma Begun(s: State)
    ensures Execute(s, []) == s
  {
  }

  lemma Extended(s: State, schedule: seq<Turn>, e: State, turn: Turn) returns (schedule': seq<Turn>, e': State)
    requires e == Execute(s, schedule)
    ensures schedule' == schedule + [turn] && e' == Execute(s, schedule') && e' == Next(e, turn)
  {
    assert (schedule + [turn])[..|schedule|] == schedule;
    return schedule + [turn], Next(e, turn);
  }

  // ---- the programs of the commands ----

  function RefKey(p: Party): string {
    match p
    case User(id) => "user:" + Text(id)
    case Organization(id) => "organization:" + Text(id)
    case Team(id) => "team:" + Text(id)
  }

  /** Byte-wise order of the account keys. */
  predicate Before(a: string, b: string) {
    if b == [] then false
    else if a == [] then true
    else a[0] < b[0] || (a[0] == b[0] && Before(a[1..], b[1..]))
  }

  /** `charge` is the credential whose daily budget the command draws on, if it has one. */
  datatype Command =
    | Fund(payer: Party, task: TaskId, amount: CreditAmount, charge: Option<nat>)
    | Send(source: Party, dest: Party, amount: CreditAmount, charge: Option<nat>)
    | Refund(task: TaskId, funder: Party, amount: CreditAmount)
    | Grant(target: Party, amount: CreditAmount)
    | Review(task: TaskId, worker: Party, paid: Option<CreditAmount>, funder: Party, rest: nat, charge: Option<nat>, reviewer: Party, tip: Option<CreditAmount>)

  function ChargePart(charge: Option<nat>): seq<Op> {
    if charge.None? then [] else [Lock(Credential(charge.value))]
  }

  /** The payer's account comes before the task's row. */
  function FundProgram(payer: Party, task: TaskId, amount: CreditAmount, charge: Option<nat>): seq<Op> {
    [Lock(Account(payer)), Lock(Row(task))] + ChargePart(charge) + [Read(payer), Debit(payer, amount), Lock(Fence)]
  }

  /** Both accounts are locked in key order, whichever way the credits go. */
  function SendProgram(source: Party, dest: Party, amount: CreditAmount, charge: Option<nat>): seq<Op> {
    var (first, second) := if Before(RefKey(dest), RefKey(source)) then (dest, source) else (source, dest);
    [Lock(Account(first)), Lock(Account(second)), Read(source)] + ChargePart(charge) + [Debit(source, amount), Credit(dest, amount), Lock(Fence)]
  }

  /** A closing accept returns what it does not pay. */
  predicate Returns(c: Command) {
    c.Review? && c.paid.Some? && c.rest > 0
  }

  /** The payout locks the worker and returns any rest to the funder without the funder's lock. */
  function PayoutPart(c: Command): seq<Op>
    requires c.Review?
  {
    if c.paid.None? then []
    else if Returns(c) then [Lock(Account(c.worker)), Credit(c.worker, c.paid.value), Credit(c.funder, c.rest)]
    else [Lock(Account(c.worker)), Credit(c.worker, c.paid.value)]
  }

  /** The tip locks the reviewer, reads the balance and locks the worker, again or for the first time. */
  function TipPart(c: Command): seq<Op>
    requires c.Review?
  {
    if c.tip.None? then []
    else [Lock(Account(c.reviewer)), Read(c.reviewer), Lock(Account(c.worker)), Debit(c.reviewer, c.tip.value), Credit(c.worker, c.tip.value)]
  }

  /** The task's row, then payout, charge and tip, each of which may be missing. */
  function ReviewProgram(c: Command): seq<Op>
    requires c.Review?
  {
    [Lock(Row(c.task))] + PayoutPart(c) + ChargePart(c.charge) + (TipPart(c) + [Lock(Fence)])
  }

  function RefundProgram(task: TaskId, funder: Party, amount: CreditAmount): seq<Op> {
    [Lock(Row(task)), Credit(funder, amount), Lock(Fence)]
  }

  function GrantProgram(target: Party, amount: CreditAmount): seq<Op> {
    [Lock(Account(target)), Credit(target, amount), Lock(Fence)]
  }

  function Program(c: Command): seq<Op> {
    match c
    case Fund(payer, task, amount, charge) => FundProgram(payer, task, amount, charge)
    case Send(source, dest, amount, charge) => SendProgram(source, dest, amount, charge)
    case Refund(task, funder, amount) => RefundProgram(task, funder, amount)
    case Grant(target, amount) => GrantProgram(target, amount)
    case Review(_, _, _, _, _, _, _, _) => ReviewProgram(c)
  }

  /** Any number of commands about to run over a committed ledger. */
  function Launch(committed: seq<Post>, commands: seq<Command>): (s: State)
    ensures |s.threads| == |commands|
  {
    State(committed, seq(|commands|, i requires 0 <= i < |commands| => Fresh(Program(commands[i]))))
  }

  // ---- no overdraft ----

  /** Every debit follows a read, and every read a lock, of the same account. */
  predicate Disciplined(todo: seq<Op>, held: set<Resource>, known: set<Party>) {
    forall k :: 0 <= k < |todo| ==>
      && (todo[k].Read? ==> Account(todo[k].account) in held || Lock(Account(todo[k].account)) in todo[..k])
      && (todo[k].Debit? ==> todo[k].account in known || Read(todo[k].account) in todo[..k])
  }

  lemma FundingIsDisciplined(c: Command)
    requires c.Fund?
    ensures Disciplined(Program(c), {}, {})
  {
    var f := Program(c);
    var at := 2 + |ChargePart(c.charge)|;
    assert f[0] == Lock(Account(c.payer)) && f[at] == Read(c.payer);
    assert f[..at][0] == f[0] && f[..at + 1][at] == f[at];
  }

  lemma SendingIsDisciplined(c: Command)
    requires c.Send?
    ensures Disciplined(Program(c), {}, {})
  {
    var s := Program(c);
    var at := 3 + |ChargePart(c.charge)|;
    assert s[2] == Read(c.source) && s[at] == Debit(c.source, c.amount);
    assert s[..2] == [s[0], s[1]] && s[..at][2] == s[2];
  }

  /** With a payout, a tip, both or neither. */
  lemma ReviewIsDisciplined(c: Command)
    requires c.Review?
    ensures Disciplined(Program(c), {}, {})
  {
    var r := Program(c);
    var at := 1 + |PayoutPart(c)| + |ChargePart(c.charge)|;
    if c.tip.Some? {
      assert r[at] == Lock(Account(c.reviewer)) && r[at + 1] == Read(c.reviewer) && r[at + 3] == Debit(c.reviewer, c.tip.value);
      assert r[..at + 1][at] == r[at] && r[..at + 3][at + 1] == r[at + 1];
    }
  }

  lemma DisciplinedRest(todo: seq<Op>, held: set<Resource>, known: set<Party>)
    requires todo != [] && Disciplined(todo, held, known)
    ensures Disciplined(todo[1..], if todo[0].Lock? then held + {todo[0].resource} else held, if todo[0].Read? then known + {todo[0].account} else known)
  {
    forall k | 0 <= k < |todo| - 1 ensures todo[1..][k] == todo[k + 1] && todo[..k + 1] == [todo[0]] + todo[1..][..k] {}
  }

  lemma SumAppend(p: seq<Post>, q: seq<Post>, a: Party)
    ensures Sum(p + q, a) == Sum(p, a) + Sum(q, a)
  {
    if q == [] {
      assert p + q == p;
    } else {
      assert (p + q)[..|p + q| - 1] == p + q[..|q| - 1];
      SumAppend(p, q[..|q| - 1], a);
    }
  }

  ghost predicate Solvent(posts: seq<Post>) {
    forall a: Party :: Sum(posts, a) >= 0
  }

  /** What a thread saw of an account is locked and a lower bound on it; elsewhere it only gives. */
  ghost predicate ThreadOk(committed: seq<Post>, t: Thread) {
    && Disciplined(t.todo, t.held, t.seen.Keys)
    && (forall a <- t.seen :: Account(a) in t.held && 0 <= t.seen[a] <= Sum(committed, a) + Sum(t.pending, a))
    && (forall a: Party :: a !in t.seen ==> Sum(t.pending, a) >= 0)
    && (t.done ==> t == FINISHED)
  }

  ghost predicate Exclusive(threads: seq<Thread>) {
    forall i, j :: 0 <= i < j < |threads| ==> threads[i].held !! threads[j].held
  }

  ghost predicate LocksInv(s: State) {
    && Solvent(s.committed)
    && Exclusive(s.threads)
    && (forall i :: 0 <= i < |s.threads| ==> ThreadOk(s.committed, s.threads[i]))
  }

  lemma FinishedOk(committed: seq<Post>)
    ensures ThreadOk(committed, FINISHED)
  {
  }

  /** Another thread's commit can only raise what this one sees, because it holds no lock this one does. */
  lemma CommitKeepsOthers(committed: seq<Post>, t: Thread, other: Thread)
    requires ThreadOk(committed, t) && ThreadOk(committed, other) && t.held !! other.held
    ensures ThreadOk(committed + other.pending, t)
  {
    forall a | a in t.seen ensures t.seen[a] <= Sum(committed + other.pending, a) + Sum(t.pending, a) {
      SumAppend(committed, other.pending, a);
      assert Account(a) in t.held;
    }
  }

  lemma CommitStaysSolvent(committed: seq<Post>, t: Thread)
    requires Solvent(committed) && ThreadOk(committed, t)
    ensures Solvent(committed + t.pending)
  {
    forall a ensures Sum(committed + t.pending, a) >= 0 {
      SumAppend(committed, t.pending, a);
    }
  }

  lemma ResultOk(committed: seq<Post>, t: Thread)
    requires Solvent(committed) && ThreadOk(committed, t) && !t.done && t.todo != []
    ensures ThreadOk(committed, Result(committed, t))
  {
    hide Disciplined;
    var u := Result(committed, t);
    DisciplinedRest(t.todo, t.held, t.seen.Keys);
    FirstIsRead(t.todo, t.held, t.seen.Keys);
    match t.todo[0]
    case Lock(r) =>
    case Read(a) =>
      assert u.seen.Keys == t.seen.Keys + {a};
    case Debit(a, n) =>
      if u == FINISHED {
        FinishedOk(committed);
      } else {
        assert u.seen.Keys == t.seen.Keys;
        forall b ensures Sum(u.pending, b) == Sum(t.pending, b) - if a == b then n else 0 {
          SumAppend(t.pending, [Post(a, -(n as int))], b);
        }
      }
    case Credit(a, n) =>
      forall b ensures Sum(u.pending, b) == Sum(t.pending, b) + if a == b then n else 0 {
        SumAppend(t.pending, [Post(a, n)], b);
      }
  }

  lemma FirstIsRead(todo: seq<Op>, held: set<Resource>, known: set<Party>)
    requires todo != [] && Disciplined(todo, held, known)
    ensures todo[0].Read? ==> Account(todo[0].account) in held
  {
  }

  /** A thread's own statement, other than a commit, leaves it well behaved. */
  lemma StatementOk(s: State, i: nat)
    requires LocksInv(s) && i < |s.threads| && !s.threads[i].done && s.threads[i].todo != []
    ensures Advance(s, i).committed == s.committed && |Advance(s, i).threads| == |s.threads|
    ensures ThreadOk(s.committed, Advance(s, i).threads[i])
    ensures forall j :: 0 <= j < |s.threads| && j != i ==> Advance(s, i).threads[j] == s.threads[j] && Advance(s, i).threads[i].held !! s.threads[j].held
  {
    hide ThreadOk;
    var t := s.threads[i];
    assert ThreadOk(s.committed, t);
    if !Blocked(s, i) {
      ResultOk(s.committed, t);
      forall j | 0 <= j < |s.threads| && j != i ensures Result(s.committed, t).held !! s.threads[j].held {
        assert t.held !! s.threads[j].held && !WaitsFor(s, i, j);
      }
    }
  }

  lemma NextKeeps(s: State, turn: Turn)
    requires LocksInv(s)
    ensures LocksInv(Next(s, turn))
  {
    var i := turn.thread;
    if i < |s.threads| && !s.threads[i].done {
      FinishedOk(s.committed);
      if !turn.rollback {
        if s.threads[i].todo == [] {
          var after := s.committed + s.threads[i].pending;
          CommitStaysSolvent(s.committed, s.threads[i]);
          FinishedOk(after);
          forall j | 0 <= j < |s.threads| && j != i ensures ThreadOk(after, s.threads[j]) {
            CommitKeepsOthers(s.committed, s.threads[j], s.threads[i]);
          }
        } else {
          StatementOk(s, i);
        }
      }
    }
  }

  ghost predicate Started(s: State) {
    && Solvent(s.committed)
    && forall i :: 0 <= i < |s.threads| ==> s.threads[i] == Fresh(s.threads[i].todo) && Disciplined(s.threads[i].todo, {}, {})
  }

  lemma StartedInv(s: State)
    requires Started(s)
    ensures LocksInv(s)
  {
    forall i | 0 <= i < |s.threads| ensures ThreadOk(s.committed, s.threads[i]) {
      assert s.threads[i].seen.Keys == {};
    }
  }

  /** However the transactions interleave and whichever roll back, no account is ever overdrawn. */
  lemma {:induction false} NoOverdraftUnderInterleaving(s: State, schedule: seq<Turn>)
    requires Started(s)
    ensures Solvent(Execute(s, schedule).committed) && LocksInv(Execute(s, schedule))
  {
    StartedInv(s);
    if schedule != [] {
      NoOverdraftUnderInterleaving(s, schedule[..|schedule| - 1]);
      NextKeeps(Execute(s, schedule[..|schedule| - 1]), schedule[|schedule| - 1]);
    }
  }

  lemma CommandIsDisciplined(c: Command)
    ensures Disciplined(Program(c), {}, {})
  {
    match c
    case Fund(_, _, _, _) => FundingIsDisciplined(c);
    case Send(_, _, _, _) => SendingIsDisciplined(c);
    case Review(_, _, _, _, _, _, _, _) => ReviewIsDisciplined(c);
    case _ =>
  }

  /** So no mix of the commands overdraws an account, whatever the schedule. */
  lemma CommandsNeverOverdraw(committed: seq<Post>, commands: seq<Command>, schedule: seq<Turn>)
    requires Solvent(committed)
    ensures Solvent(Execute(Launch(committed, commands), schedule).committed)
  {
    hide Program, Disciplined, Execute, LocksInv;
    forall i | 0 <= i < |commands| ensures Disciplined(Program(commands[i]), {}, {}) {
      CommandIsDisciplined(commands[i]);
    }
    NoOverdraftUnderInterleaving(Launch(committed, commands), schedule);
  }

  // ---- what a commit posts ----

  /** What statements post to an account in all. */
  function Net(ops: seq<Op>, a: Party): int {
    if ops == [] then 0
    else
      Net(ops[1..], a) + match ops[0]
        case Debit(b, n) => if a == b then -(n as int) else 0
        case Credit(b, n) => if a == b then n else 0
        case _ => 0
  }

  /** What a command as a whole does to an account. */
  function Moves(c: Command, a: Party): int {
    match c
    case Fund(payer, _, n, _) => if a == payer then -(n as int) else 0
    case Send(source, dest, n, _) => (if a == dest then n else 0) - (if a == source then n else 0)
    case Refund(_, funder, n) => if a == funder then n else 0
    case Grant(target, n) => if a == target then n else 0
    case Review(_, worker, paid, funder, rest, _, reviewer, tip) =>
      (if paid.Some? && a == worker then paid.value else 0) + (if paid.Some? && a == funder then rest else 0)
      + (if tip.Some? && a == worker then tip.value else 0) - (if tip.Some? && a == reviewer then tip.value else 0)
  }

  lemma {:induction false} NetAppend(p: seq<Op>, q: seq<Op>, a: Party)
    ensures Net(p + q, a) == Net(p, a) + Net(q, a)
  {
    if p == [] {
      assert p + q == q;
    } else {
      assert (p + q)[1..] == p[1..] + q;
      NetAppend(p[1..], q, a);
    }
  }

  lemma ChargesPostNothing(charge: Option<nat>, a: Party)
    ensures Net(ChargePart(charge), a) == 0
  {
  }

  lemma NetOfThree(x: Op, y: Op, z: Op, a: Party)
    ensures Net([x, y], a) == Net([x], a) + Net([y], a)
    ensures Net([x, y, z], a) == Net([x], a) + Net([y], a) + Net([z], a)
  {
    NetAppend([x], [y], a);
    NetAppend([x], [y, z], a);
    NetAppend([y], [z], a);
    assert [x, y] == [x] + [y] && [x, y, z] == [x] + [y, z] && [y, z] == [y] + [z];
  }

  lemma FundingMoves(c: Command, a: Party)
    requires c.Fund?
    ensures Net(Program(c), a) == Moves(c, a)
  {
    hide ChargePart;
    var (p, charge) := (Program(c), ChargePart(c.charge));
    var (start, end) := ([Lock(Account(c.payer)), Lock(Row(c.task))], [Read(c.payer), Debit(c.payer, c.amount), Lock(Fence)]);
    assert p == start + charge + end;
    ChargesPostNothing(c.charge, a);
    NetAppend(start + charge, end, a);
    NetAppend(start, charge, a);
    NetOfThree(end[0], end[1], end[2], a);
    NetOfThree(start[0], start[1], start[1], a);
  }

  lemma SendingMoves(c: Command, a: Party)
    requires c.Send?
    ensures Net(Program(c), a) == Moves(c, a)
  {
    hide ChargePart, Before, RefKey;
    var (p, charge) := (Program(c), ChargePart(c.charge));
    var (start, end) := (p[..3], [Debit(c.source, c.amount), Credit(c.dest, c.amount), Lock(Fence)]);
    assert p == start + charge + end && start == [p[0], p[1], Read(c.source)];
    ChargesPostNothing(c.charge, a);
    NetAppend(start + charge, end, a);
    NetAppend(start, charge, a);
    NetOfThree(end[0], end[1], end[2], a);
    NetOfThree(start[0], start[1], start[2], a);
  }

  lemma PayoutMoves(c: Command, a: Party)
    requires c.Review?
    ensures Net(PayoutPart(c), a) == (if c.paid.Some? && a == c.worker then c.paid.value else 0) + (if c.paid.Some? && a == c.funder then c.rest else 0)
  {
    var p := PayoutPart(c);
    if c.paid.Some? {
      NetOfThree(p[0], p[1], if Returns(c) then p[2] else p[1], a);
      assert p == if Returns(c) then [p[0], p[1], p[2]] else [p[0], p[1]];
    }
  }

  lemma TipMoves(c: Command, a: Party)
    requires c.Review?
    ensures Net(TipPart(c) + [Lock(Fence)], a) == (if c.tip.Some? && a == c.worker then c.tip.value else 0) - (if c.tip.Some? && a == c.reviewer then c.tip.value else 0)
  {
    var p := TipPart(c) + [Lock(Fence)];
    if c.tip.Some? {
      var (start, end) := ([Lock(Account(c.reviewer)), Read(c.reviewer), Lock(Account(c.worker))], [Debit(c.reviewer, c.tip.value), Credit(c.worker, c.tip.value), Lock(Fence)]);
      assert p == start + end;
      NetAppend(start, end, a);
      NetOfThree(start[0], start[1], start[2], a);
      NetOfThree(end[0], end[1], end[2], a);
    } else {
      assert p == [Lock(Fence)] && p[1..] == [];
    }
  }

  lemma ReviewMoves(c: Command, a: Party)
    requires c.Review?
    ensures Net(Program(c), a) == Moves(c, a)
  {
    hide PayoutPart, TipPart;
    var (row, pay, charge, end) := ([Lock(Row(c.task))], PayoutPart(c), ChargePart(c.charge), TipPart(c) + [Lock(Fence)]);
    NetAppend(row + pay + charge, end, a);
    NetAppend(row + pay, charge, a);
    NetAppend(row, pay, a);
    ChargesPostNothing(c.charge, a);
    PayoutMoves(c, a);
    TipMoves(c, a);
    assert row[1..] == [];
  }

  lemma ProgramMoves(c: Command, a: Party)
    ensures Net(Program(c), a) == Moves(c, a)
  {
    match c
    case Review(_, _, _, _, _, _, _, _) => ReviewMoves(c, a);
    case Refund(task, funder, n) => NetOfThree(Lock(Row(task)), Credit(funder, n), Lock(Fence), a);
    case Grant(target, n) => NetOfThree(Lock(Account(target)), Credit(target, n), Lock(Fence), a);
    case Fund(_, _, _, _) => FundingMoves(c, a);
    case Send(_, _, _, _) => SendingMoves(c, a);
  }

  /** What a running thread has posted and what it has yet to post make up its command. */
  ghost predicate OnCourse(t: Thread, c: Command) {
    !t.done ==> forall a: Party :: Sum(t.pending, a) + Net(t.todo, a) == Moves(c, a)
  }

  lemma ResultOnCourse(committed: seq<Post>, t: Thread, c: Command)
    requires OnCourse(t, c) && !t.done && t.todo != []
    ensures OnCourse(Result(committed, t), c)
  {
    hide Moves;
    var u := Result(committed, t);
    if !u.done {
      forall a: Party ensures Sum(u.pending, a) + Net(u.todo, a) == Moves(c, a) {
        if t.todo[0].Debit? || t.todo[0].Credit? {
          var posted := [u.pending[|t.pending|]];
          SumAppend(t.pending, posted, a);
          OnePost(posted[0].account, posted[0].amount);
          OnePostElsewhere(posted[0], a);
        }
      }
    }
  }

  lemma OnePostElsewhere(p: Post, a: Party)
    ensures Sum([p], a) == if a == p.account then p.amount else 0
  {
    assert [p][..0] == [];
  }

  lemma OnePost(a: Party, n: int)
    ensures Sum([], a) == 0 && Sum([Post(a, n)], a) == n
  {
    assert [Post(a, n)][..0] == [];
  }

  lemma {:induction false} AllOnCourse(committed: seq<Post>, commands: seq<Command>, schedule: seq<Turn>)
    ensures var e := Execute(Launch(committed, commands), schedule);
      |e.threads| == |commands| && forall i :: 0 <= i < |commands| ==> OnCourse(e.threads[i], commands[i])
  {
    hide Result, Program, OnCourse, Blocked;
    if schedule == [] {
      forall i | 0 <= i < |commands| ensures OnCourse(Fresh(Program(commands[i])), commands[i]) {
        FreshOnCourse(commands[i]);
      }
    } else {
      var (before, turn) := (Execute(Launch(committed, commands), schedule[..|schedule| - 1]), schedule[|schedule| - 1]);
      AllOnCourse(committed, commands, schedule[..|schedule| - 1]);
      var i := turn.thread;
      if i < |commands| && !before.threads[i].done {
        FinishedOnCourse(commands[i]);
        if before.threads[i].todo != [] { ResultOnCourse(before.committed, before.threads[i], commands[i]); }
      }
    }
  }

  lemma FreshOnCourse(c: Command)
    ensures OnCourse(Fresh(Program(c)), c)
  {
    forall a: Party { ProgramMoves(c, a); }
  }

  lemma FinishedOnCourse(c: Command)
    ensures OnCourse(FINISHED, c)
  {
  }

  /**
   Whatever interleaved before, a turn either posts nothing or is a commit, and
   then posts to every account exactly what the thread's command as a whole moves.
   */
  lemma CommitsPostWholeCommands(committed: seq<Post>, commands: seq<Command>, schedule: seq<Turn>, turn: Turn, a: Party)
    ensures var e := Execute(Launch(committed, commands), schedule);
      var (e', i) := (Next(e, turn), turn.thread);
      && |e.threads| == |commands|
      && (if i < |commands| && !e.threads[i].done && e.threads[i].todo == [] && !turn.rollback
          then e'.threads[i].done && Sum(e'.committed, a) == Sum(e.committed, a) + Moves(commands[i], a)
          else e'.committed == e.committed)
  {
    hide Execute, Moves, Program, Blocked;
    AllOnCourse(committed, commands, schedule);
    var e := Execute(Launch(committed, commands), schedule);
    if turn.thread < |e.threads| {
      var t := e.threads[turn.thread];
      SumAppend(e.committed, t.pending, a);
      assert OnCourse(t, commands[turn.thread]);
    }
  }

  // ---- what a locked read is worth ----

  /** A program debits what it read before it credits the same account. */
  predicate Prompt(todo: seq<Op>, known: set<Party>) {
    todo == [] ||
    ((todo[0].Credit? && todo[0].account in known ==> forall op <- todo[1..] :: op.Debit? ==> op.account != todo[0].account)
     && Prompt(todo[1..], if todo[0].Read? then known + {todo[0].account} else known))
  }

  /** Whoever has posted to an account shares its lock, and no one else has it for update. */
  ghost predicate PostsShared(s: State) {
    && (forall i :: 0 <= i < |s.threads| ==> forall a: Party :: Sum(s.threads[i].pending, a) != 0 ==> Account(a) in s.threads[i].shared)
    && (forall i, j :: 0 <= i < |s.threads| && 0 <= j < |s.threads| && i != j ==> s.threads[i].held !! s.threads[j].shared)
  }

  /** What a thread read of an account it is still to debit is what the account holds, its own posts included. */
  ghost predicate Exact(committed: seq<Post>, t: Thread) {
    && Prompt(t.todo, t.seen.Keys)
    && forall a <- t.seen :: (exists op <- t.todo :: op.Debit? && op.account == a) ==> t.seen[a] == Sum(committed, a) + Sum(t.pending, a)
  }

  ghost predicate ExactInv(s: State) {
    LocksInv(s) && PostsShared(s) && forall i :: 0 <= i < |s.threads| ==> Exact(s.committed, s.threads[i])
  }

  lemma ResultExact(committed: seq<Post>, t: Thread)
    requires Exact(committed, t) && !t.done && t.todo != []
    ensures Exact(committed, Result(committed, t))
  {
    var (u, op) := (Result(committed, t), t.todo[0]);
    assert forall o <- t.todo[1..] :: o in t.todo;
    if u != FINISHED {
      assert u.seen.Keys == if op.Read? then t.seen.Keys + {op.account} else t.seen.Keys;
      assert t.seen.Keys + {} == t.seen.Keys;
      forall a | a in u.seen && exists o <- u.todo :: o.Debit? && o.account == a ensures u.seen[a] == Sum(committed, a) + Sum(u.pending, a) {
        if op.Debit? || op.Credit? {
          var posted := [u.pending[|t.pending|]];
          SumAppend(t.pending, posted, a);
          OnePostElsewhere(posted[0], a);
        }
      }
    }
  }

  lemma ResultShares(committed: seq<Post>, t: Thread)
    requires (forall a: Party :: Sum(t.pending, a) != 0 ==> Account(a) in t.shared) && !t.done && t.todo != []
    ensures forall a: Party :: Sum(Result(committed, t).pending, a) != 0 ==> Account(a) in Result(committed, t).shared
  {
    var (u, op) := (Result(committed, t), t.todo[0]);
    if u != FINISHED && (op.Debit? || op.Credit?) {
      forall a: Party | Sum(u.pending, a) != 0 ensures Account(a) in u.shared {
        var posted := [u.pending[|t.pending|]];
        SumAppend(t.pending, posted, a);
        OnePostElsewhere(posted[0], a);
      }
    }
  }

  /** Another thread's commit posts nothing to an account that this one has read under its lock. */
  lemma CommitKeepsExact(committed: seq<Post>, t: Thread, other: Thread)
    requires ThreadOk(committed, t) && Exact(committed, t) && t.held !! other.shared
    requires forall a: Party :: Sum(other.pending, a) != 0 ==> Account(a) in other.shared
    ensures Exact(committed + other.pending, t)
  {
    forall a | a in t.seen ensures Sum(committed + other.pending, a) == Sum(committed, a) {
      SumAppend(committed, other.pending, a);
      assert Account(a) in t.held;
    }
  }

  lemma StatementKeepsShared(s: State, i: nat)
    requires PostsShared(s) && i < |s.threads| && !s.threads[i].done && s.threads[i].todo != [] && Disciplined(s.threads[i].todo, s.threads[i].held, s.threads[i].seen.Keys)
    requires !Blocked(s, i)
    requires forall a :: Account(a) in s.threads[i].held ==> forall j :: 0 <= j < |s.threads| && j != i ==> Account(a) !in s.threads[j].held
    ensures PostsShared(Advance(s, i))
  {
    hide Disciplined;
    var (t, u) := (s.threads[i], Result(s.committed, s.threads[i]));
    ResultShares(s.committed, t);
    forall j | 0 <= j < |s.threads| && j != i ensures u.held !! s.threads[j].shared && s.threads[j].held !! u.shared {
      assert t.held !! s.threads[j].shared && s.threads[j].held !! t.shared;
      assert !WaitsFor(s, i, j);
    }
  }

  lemma NextExact(s: State, turn: Turn)
    requires ExactInv(s)
    ensures ExactInv(Next(s, turn))
  {
    hide ThreadOk, Exact, Disciplined, Blocked, Result, Solvent;
    NextKeeps(s, turn);
    var i := turn.thread;
    if i < |s.threads| && !s.threads[i].done {
      var t := s.threads[i];
      FinishedExact(s.committed);
      FinishedExact(s.committed + t.pending);
      if !turn.rollback {
        if t.todo == [] {
          forall j | 0 <= j < |s.threads| && j != i ensures Exact(s.committed + t.pending, s.threads[j]) {
            CommitKeepsExact(s.committed, s.threads[j], t);
          }
        } else if !Blocked(s, i) {
          ResultExact(s.committed, t);
          OkIsDisciplined(s.committed, t);
          StatementKeepsShared(s, i);
        }
      }
    }
  }

  lemma OkIsDisciplined(committed: seq<Post>, t: Thread)
    requires ThreadOk(committed, t)
    ensures Disciplined(t.todo, t.held, t.seen.Keys)
  {
  }

  lemma FinishedExact(committed: seq<Post>)
    ensures Exact(committed, FINISHED) && FINISHED.held == {} && FINISHED.shared == {} && forall a: Party :: Sum(FINISHED.pending, a) == 0
  {
  }

  lemma CreditLast(op: Op, known: set<Party>)
    ensures Prompt([op, Lock(Fence)], known)
  {
  }

  lemma {:induction false} PromptUncredited(p: seq<Op>, q: seq<Op>, known: set<Party>)
    requires forall op <- p :: !op.Read? && (op.Credit? ==> op.account !in known)
    requires Prompt(q, known)
    ensures Prompt(p + q, known)
  {
    if p == [] {
      assert p + q == q;
    } else {
      assert (p + q)[1..] == p[1..] + q;
      PromptUncredited(p[1..], q, known);
    }
  }

  lemma PromptRead(a: Party, q: seq<Op>)
    requires Prompt(q, {a})
    ensures Prompt([Read(a)] + q, {})
  {
    var none: set<Party> := {};
    assert ([Read(a)] + q)[1..] == q && none + {a} == {a};
  }

  lemma CreditsLastArePrompt(n: CreditAmount, from: Party, to: Party, known: set<Party>)
    ensures Prompt([Debit(from, n), Credit(to, n), Lock(Fence)], known)
  {
    var p := [Debit(from, n), Credit(to, n), Lock(Fence)];
    assert p[1..] == [Credit(to, n), Lock(Fence)];
    CreditLast(Credit(to, n), known);
  }

  lemma SpendingIsPrompt(c: Command)
    requires c.Fund? || c.Send?
    ensures Prompt(Program(c), {})
  {
    hide Before, RefKey, Prompt;
    var (p, charge) := (Program(c), ChargePart(c.charge));
    match c
    case Fund(payer, task, n, _) =>
      var end := [Debit(payer, n), Lock(Fence)];
      CreditLast(Debit(payer, n), {payer});
      PromptRead(payer, end);
      PromptUncredited([Lock(Account(payer)), Lock(Row(task))] + charge, [Read(payer)] + end, {});
      assert p == [Lock(Account(payer)), Lock(Row(task))] + charge + ([Read(payer)] + end);
    case Send(source, dest, n, _) =>
      var end := [Debit(source, n), Credit(dest, n), Lock(Fence)];
      CreditsLastArePrompt(n, source, dest, {source});
      PromptUncredited(charge, end, {source});
      PromptRead(source, charge + end);
      PromptUncredited(p[..2], [Read(source)] + (charge + end), {});
      assert p == p[..2] + ([Read(source)] + (charge + end));
  }

  lemma ReviewIsPrompt(c: Command)
    requires c.Review?
    ensures Prompt(Program(c), {})
  {
    hide Prompt;
    var start := [Lock(Row(c.task))] + PayoutPart(c) + ChargePart(c.charge);
    var end := TipPart(c) + [Lock(Fence)];
    assert forall op <- start :: !op.Read?;
    if c.tip.Some? {
      var (r, w, n) := (c.reviewer, c.worker, c.tip.value);
      var last := [Debit(r, n), Credit(w, n), Lock(Fence)];
      CreditsLastArePrompt(n, r, w, {r});
      PromptUncredited([Lock(Account(w))], last, {r});
      PromptRead(r, [Lock(Account(w))] + last);
      PromptUncredited([Lock(Account(r))], [Read(r)] + ([Lock(Account(w))] + last), {});
      assert end == [Lock(Account(r))] + ([Read(r)] + ([Lock(Account(w))] + last));
    } else {
      FencePrompt();
      assert end == [Lock(Fence)];
    }
    PromptUncredited(start, end, {});
  }

  lemma FencePrompt()
    ensures Prompt([Lock(Fence)], {})
  {
  }

  lemma CommandIsPrompt(c: Command)
    ensures Prompt(Program(c), {})
  {
    match c
    case Fund(_, _, _, _) => SpendingIsPrompt(c);
    case Send(_, _, _, _) => SpendingIsPrompt(c);
    case Review(_, _, _, _, _, _, _, _) => ReviewIsPrompt(c);
    case _ =>
      FencePrompt();
      PromptUncredited(Program(c)[..2], [Lock(Fence)], {});
      assert Program(c) == Program(c)[..2] + [Lock(Fence)];
  }

  lemma {:induction false} ExactAlways(committed: seq<Post>, commands: seq<Command>, schedule: seq<Turn>)
    requires Solvent(committed)
    ensures ExactInv(Execute(Launch(committed, commands), schedule)) && |Execute(Launch(committed, commands), schedule).threads| == |commands|
  {
    hide Next, Program, Prompt, Disciplined, ExactInv;
    if schedule == [] {
      LaunchIsExact(committed, commands);
    } else {
      ExactAlways(committed, commands, schedule[..|schedule| - 1]);
      NextExact(Execute(Launch(committed, commands), schedule[..|schedule| - 1]), schedule[|schedule| - 1]);
      NextKeepsCount(Execute(Launch(committed, commands), schedule[..|schedule| - 1]), schedule[|schedule| - 1]);
    }
  }

  lemma NextKeepsCount(s: State, turn: Turn)
    ensures |Next(s, turn).threads| == |s.threads|
  {
  }

  lemma LaunchIsExact(committed: seq<Post>, commands: seq<Command>)
    requires Solvent(committed)
    ensures ExactInv(Launch(committed, commands))
  {
    hide Program, Disciplined, Prompt, Solvent;
    var s := Launch(committed, commands);
    forall i | 0 <= i < |commands| ensures s.threads[i] == Fresh(Program(commands[i])) && Disciplined(s.threads[i].todo, {}, {}) && Prompt(s.threads[i].todo, {}) {
      CommandIsDisciplined(commands[i]);
      CommandIsPrompt(commands[i]);
    }
    StartedInv(s);
    forall i | 0 <= i < |commands| ensures Exact(committed, s.threads[i]) {
      assert s.threads[i].seen.Keys == {};
    }
  }

  /**
   In every reachable state a debit goes through at once or is refused, and is
   refused exactly when what is committed and what its own transaction has posted
   do not cover it: no one else's posts can be on their way to or from the account.
   */
  lemma DebitRefusedIffNotCovered(committed: seq<Post>, commands: seq<Command>, schedule: seq<Turn>, i: nat)
    requires Solvent(committed) && i < |commands|
    requires var e := Execute(Launch(committed, commands), schedule);
      |e.threads| == |commands| && !e.threads[i].done && e.threads[i].todo != [] && e.threads[i].todo[0].Debit?
    ensures var e := Execute(Launch(committed, commands), schedule);
      var (t, op) := (e.threads[i], e.threads[i].todo[0]);
      && (Next(e, Turn(i, false)).threads[i] == FINISHED <==> Sum(e.committed, op.account) + Sum(t.pending, op.account) < op.amount)
      && Next(e, Turn(i, false)).threads[i] != t
      && forall j :: 0 <= j < |commands| && j != i ==> Sum(e.threads[j].pending, op.account) == 0
  {
    hide Execute, Program;
    ExactAlways(committed, commands, schedule);
    var e := Execute(Launch(committed, commands), schedule);
    DebitOnExact(e, i);
  }

  lemma DebitOnExact(e: State, i: nat)
    requires ExactInv(e) && i < |e.threads| && !e.threads[i].done && e.threads[i].todo != [] && e.threads[i].todo[0].Debit?
    ensures var (t, op) := (e.threads[i], e.threads[i].todo[0]);
      && (Next(e, Turn(i, false)).threads[i] == FINISHED <==> Sum(e.committed, op.account) + Sum(t.pending, op.account) < op.amount)
      && Next(e, Turn(i, false)).threads[i] != t
      && forall j :: 0 <= j < |e.threads| && j != i ==> Sum(e.threads[j].pending, op.account) == 0
  {
    var (t, op) := (e.threads[i], e.threads[i].todo[0]);
    assert ThreadOk(e.committed, t) && Exact(e.committed, t);
    assert op in t.todo && op.account in t.seen && Account(op.account) in t.held;
    assert forall j :: 0 <= j < |e.threads| && j != i ==> t.held !! e.threads[j].shared;
    assert !Blocked(e, i);
  }

  /** Every program takes the fence last and once. */
  lemma FenceIsLast(c: Command)
    ensures var p := Program(c);
      |p| > 0 && p[|p| - 1] == Lock(Fence) && forall k :: 0 <= k < |p| - 1 ==> p[k] != Lock(Fence)
  {
    if c.Review? {
      assert forall op <- PayoutPart(c) :: op != Lock(Fence);
      assert forall op <- TipPart(c) :: op != Lock(Fence);
    }
  }

  // ---- without the lock ----

  /** A statement of one of two threads goes through unless it waits for the other. */
  lemma GoesThrough(s: State, i: nat)
    requires |s.threads| == 2 && i < 2 && !s.threads[i].done && s.threads[i].todo != [] && !WaitsFor(s, i, 1 - i)
    ensures Next(s, Turn(i, false)) == s.(threads := s.threads[i := Result(s.committed, s.threads[i])])
  {
    assert forall j :: 0 <= j < 2 ==> !WaitsFor(s, i, j);
  }

  /** A funding without its first statement, the lock on the payer's account. */
  function Unlocked(payer: Party, task: TaskId, n: CreditAmount): seq<Op> {
    FundProgram(payer, task, n, None)[1..]
  }

  lemma FundingStatements(payer: Party, task: TaskId, n: CreditAmount)
    ensures Unlocked(payer, task, n) == [Lock(Row(task)), Read(payer), Debit(payer, n), Lock(Fence)]
  {
  }

  /** A funding that has read the balance, debited the payer and not yet reached the fence. */
  function Spent(payer: Party, task: TaskId, n: CreditAmount): Thread {
    Thread([Lock(Fence)], {Row(task)}, {Account(payer)}, map[payer := 0], [Post(payer, -(n as int))], false)
  }

  /** The same funding once it has locked its task, and once it has read the balance. */
  function Entered(payer: Party, task: TaskId, n: CreditAmount): Thread {
    Thread([Read(payer), Debit(payer, n), Lock(Fence)], {Row(task)}, {}, map[], [], false)
  }

  function Informed(payer: Party, task: TaskId, n: CreditAmount): Thread {
    Thread([Debit(payer, n), Lock(Fence)], {Row(task)}, {}, map[payer := n], [], false)
  }

  lemma FundingResults(payer: Party, task: TaskId, n: CreditAmount)
    ensures var c0 := [Post(payer, n)];
      && Unlocked(payer, task, n) != [] && Unlocked(payer, task, n)[0] == Lock(Row(task))
      && Result(c0, Fresh(Unlocked(payer, task, n))) == Entered(payer, task, n)
      && Result(c0, Entered(payer, task, n)) == Informed(payer, task, n)
      && Result(c0, Informed(payer, task, n)) == Spent(payer, task, n)
  {
    hide Unlocked, Sum;
    FundingStatements(payer, task, n);
    OnePost(payer, n);
    var nothing: seq<Post> := [];
    var none: set<Resource> := {};
    assert none + {Account(payer)} == {Account(payer)} && none + {Row(task)} == {Row(task)} && nothing + [Post(payer, -(n as int))] == [Post(payer, -(n as int))];
    assert map[][payer := n] == map[payer := n] && map[payer := n][payer := 0] == map[payer := 0];
    assert Unlocked(payer, task, n)[1..] == Entered(payer, task, n).todo;
    assert Entered(payer, task, n).todo[1..] == Informed(payer, task, n).todo && Informed(payer, task, n).todo[1..] == [Lock(Fence)];
  }

  lemma BothSpend(payer: Party, t: TaskId, u: TaskId, n: CreditAmount) returns (schedule: seq<Turn>)
    requires t != u
    ensures Execute(State([Post(payer, n)], [Fresh(Unlocked(payer, t, n)), Fresh(Unlocked(payer, u, n))]), schedule) == State([Post(payer, n)], [Spent(payer, t, n), Spent(payer, u, n)])
  {
    hide Execute, Next, Sum, Unlocked, Result;
    FundingResults(payer, t, n);
    FundingResults(payer, u, n);
    var c0 := [Post(payer, n)];
    var s0 := State(c0, [Fresh(Unlocked(payer, t, n)), Fresh(Unlocked(payer, u, n))]);
    Begun(s0);
    GoesThrough(s0, 0);
    var d1, s1 := Extended(s0, [], s0, Turn(0, false));
    GoesThrough(s1, 1);
    var d2, s2 := Extended(s0, d1, s1, Turn(1, false));
    assert s2 == State(c0, [Entered(payer, t, n), Entered(payer, u, n)]);
    GoesThrough(s2, 0);
    var d3, s3 := Extended(s0, d2, s2, Turn(0, false));
    GoesThrough(s3, 1);
    var d4, s4 := Extended(s0, d3, s3, Turn(1, false));
    assert s4 == State(c0, [Informed(payer, t, n), Informed(payer, u, n)]);
    GoesThrough(s4, 0);
    var d5, s5 := Extended(s0, d4, s4, Turn(0, false));
    GoesThrough(s5, 1);
    var d6, s6 := Extended(s0, d5, s5, Turn(1, false));
    assert s6 == State(c0, [Spent(payer, t, n), Spent(payer, u, n)]);
    return d6;
  }

  /** A thread with only the fence left takes it and commits. */
  lemma Finishes(s0: State, schedule: seq<Turn>, s: State, i: nat) returns (schedule': seq<Turn>, s': State)
    requires s == Execute(s0, schedule) && |s.threads| == 2 && i < 2
    requires !s.threads[i].done && s.threads[i].todo == [Lock(Fence)]
    requires Fence !in s.threads[1 - i].held + s.threads[1 - i].shared
    ensures s' == Execute(s0, schedule') && s' == State(s.committed + s.threads[i].pending, s.threads[i := FINISHED])
  {
    hide Execute;
    GoesThrough(s, i);
    var d1, s1 := Extended(s0, schedule, s, Turn(i, false));
    schedule', s' := Extended(s0, d1, s1, Turn(i, false));
  }

  /** Without the payer's lock two fundings of different tasks that both read before either writes overdraw the account. */
  lemma UnlockedReadsOverdraw(payer: Party, t: TaskId, u: TaskId, n: CreditAmount)
    requires t != u
    ensures exists schedule :: Sum(Execute(State([Post(payer, n)], [Fresh(Unlocked(payer, t, n)), Fresh(Unlocked(payer, u, n))]), schedule).committed, payer) < 0
  {
    hide Execute, Unlocked;
    FundingStatements(payer, t, n);
    FundingStatements(payer, u, n);
    var (c0, spend) := ([Post(payer, n)], [Post(payer, -(n as int))]);
    var s0 := State(c0, [Fresh(Unlocked(payer, t, n)), Fresh(Unlocked(payer, u, n))]);
    var d := BothSpend(payer, t, u, n);
    var s := State(c0, [Spent(payer, t, n), Spent(payer, u, n)]);
    var d1, s1 := Finishes(s0, d, s, 0);
    var d2, s2 := Finishes(s0, d1, s1, 1);
    assert s2.committed == c0 + spend + spend;
    OnePost(payer, n);
    OnePost(payer, -(n as int));
    SumAppend(c0, spend, payer);
    SumAppend(c0 + spend, spend, payer);
  }
}
