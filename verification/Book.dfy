/**
 The credit book: the append-only ledger_entries table and the task_funds table
 that caches what each task currently holds. Every command of the economy moves
 credits through one of the five moves defined here.
 */
module Book {
  import opened Prelude

  datatype Kind = SignupGrant | TaskFund | TaskRefund | TaskPayout | TaskTip | ManualAdjustment | PeerTransfer

  datatype Entry = Entry(account: Party, kind: Kind, amount: int, task: Option<TaskId>, key: Option<Key>)

  datatype Fund = Fund(funder: Party, amount: int)

  datatype Book = Book(entries: seq<Entry>, funds: map<TaskId, Fund>)

  /** Which entries a sum ranges over. */
  datatype Selector = Everything | Minted | OnAccount(account: Party) | OnTask(task: TaskId) | OfKind(kind: Kind, task: TaskId)

  predicate Selects(sel: Selector, e: Entry) {
    match sel
    case Everything => true
    case Minted => e.kind.SignupGrant? || e.kind.ManualAdjustment?
    case OnAccount(a) => e.account == a
    case OnTask(t) => e.task == Some(t) && (e.kind.TaskFund? || e.kind.TaskPayout? || e.kind.TaskRefund?)
    case OfKind(k, t) => e.task == Some(t) && e.kind == k
  }

  function Weight(sel: Selector, e: Entry): int {
    if Selects(sel, e) then e.amount else 0
  }

  function Total(entries: seq<Entry>, sel: Selector): int {
    if entries == [] then 0 else Total(entries[..|entries| - 1], sel) + Weight(sel, entries[|entries| - 1])
  }

  /** Spendable credits of an account: the sum of its entries. */
  function Balance(b: Book, account: Party): int {
    Total(b.entries, OnAccount(account))
  }

  /** Credits a task holds: its fund row, or nothing. */
  function Held(b: Book, task: TaskId): int {
    Amount(b.funds, task)
  }

  /** The entry an account already recorded under a key. */
  function Find(entries: seq<Entry>, account: Party, key: Key): (r: Option<Entry>)
    ensures r.Some? ==> r.value in entries && r.value.account == account && r.value.key == Some(key)
    ensures r.None? ==> forall e <- entries :: e.account == account ==> e.key != Some(key)
  {
    if entries == [] then None
    else if entries[|entries| - 1].account == account && entries[|entries| - 1].key == Some(key) then
      Some(entries[|entries| - 1])
    else Find(entries[..|entries| - 1], account, key)
  }

  // ---- the moves ----

  /** An insert obeys the non-zero amount check and the unique index on (account, key). */
  function Insert(b: Book, e: Entry): Outcome<Book> {
    if e.amount == 0 || (e.key.Some? && Find(b.entries, e.account, e.key.value).Some?) then Refuse(ConstraintViolated)
    else Ok(b.(entries := b.entries + [e]))
  }

  function Mint(b: Book, kind: Kind, account: Party, amount: CreditAmount, key: Key): Outcome<Book> {
    Insert(b, Entry(account, kind, amount, None, Some(key)))
  }

  function Allocate(b: Book, task: TaskId, funder: Party, amount: CreditAmount, key: Key): Outcome<Book> {
    if task in b.funds then Refuse(AlreadyFunded)
    else if Balance(b, funder) < amount then Refuse(InsufficientCredits)
    else Insert(b.(funds := b.funds[task := Fund(funder, amount)]), Entry(funder, TaskFund, -(amount as int), Some(task), Some(key)))
  }

  datatype Selection = NoCredit | Full | Partial(amount: CreditAmount)

  function Without(b: Book, task: TaskId): Book {
    b.(funds := b.funds - {task})
  }

  /** Pays a task's credits to a worker. Closing returns the rest to the funder; otherwise the rest stays allocated. */
  function PayReview(b: Book, task: TaskId, worker: Party, hasAccount: bool, selection: Selection, key: Key, close: bool)
    : Outcome<(Book, Option<CreditAmount>)>
  {
    if selection.NoCredit? then Ok((b, None))
    else if task !in b.funds then (if selection.Partial? then Refuse(FundMissing) else Ok((b, None)))
    else
      var fund := b.funds[task];
      var pay := if selection.Partial? then selection.amount else fund.amount;
      if pay > fund.amount then Refuse(PayoutExceedsFund)
      else if !hasAccount then Refuse(NoAccount)
      else
        var paid :- Insert(b, Entry(worker, TaskPayout, pay, Some(task), Some(key)));
        var rest := fund.amount - pay;
        if pay <= 0 then Refuse(ConstraintViolated)
        else if !close && rest != 0 then Ok((paid.(funds := paid.funds[task := fund.(amount := rest)]), Some(pay)))
        else if close && rest > 0 then
          var settled :- Insert(paid, Entry(fund.funder, TaskRefund, rest, Some(task), None));
          Ok((Without(settled, task), Some(pay)))
        else Ok((Without(paid, task), Some(pay)))
  }

  /** Returns whatever a task holds to its funder; an unfunded task returns nothing. */
  function Return(b: Book, task: TaskId, key: Option<Key>): Outcome<Book> {
    if task !in b.funds then Ok(b)
    else
      var back :- Insert(b, Entry(b.funds[task].funder, TaskRefund, b.funds[task].amount, Some(task), key));
      Ok(Without(back, task))
  }

  /** Tips and peer sends: a debit and a credit, each under its own key. */
  function Move(b: Book, kind: Kind, task: Option<TaskId>, from: Party, to: Party, amount: CreditAmount, debitKey: Key, creditKey: Key)
    : Outcome<Book>
  {
    if Balance(b, from) < amount then Refuse(InsufficientCredits)
    else
      var debited :- Insert(b, Entry(from, kind, -(amount as int), task, Some(debitKey)));
      Insert(debited, Entry(to, kind, amount, task, Some(creditKey)))
  }

  // ---- the invariant ----

  ghost function SumOver(funds: map<TaskId, Fund>, tasks: set<TaskId>): int
    requires tasks <= funds.Keys
  {
    if tasks == {} then 0
    else
      var t :| t in tasks;
      funds[t].amount + SumOver(funds, tasks - {t})
  }

  ghost function FundsTotal(funds: map<TaskId, Fund>): int {
    SumOver(funds, funds.Keys)
  }

  /** The tasks an account funds. */
  function FundedBy(funds: map<TaskId, Fund>, account: Party): set<TaskId> {
    set t | t in funds && funds[t].funder == account
  }

  /** Allocated credits of an account: what the tasks it funds hold. */
  ghost function AllocatedBy(b: Book, account: Party): int {
    SumOver(b.funds, FundedBy(b.funds, account))
  }

  ghost predicate NoOverdraft(b: Book) {
    forall a: Party :: Balance(b, a) >= 0
  }

  /** The cached row of every task agrees with the fold over the ledger. */
  ghost predicate FundsAgree(b: Book) {
    forall t: TaskId :: Held(b, t) == -Total(b.entries, OnTask(t))
  }

  ghost predicate FundsPositive(b: Book) {
    forall t <- b.funds :: b.funds[t].amount > 0
  }

  ghost predicate KeysUnique(entries: seq<Entry>) {
    forall i, j :: 0 <= i < j < |entries| && entries[i].account == entries[j].account && entries[i].key.Some? ==>
      entries[i].key != entries[j].key
  }

  ghost predicate Conserved(b: Book) {
    Total(b.entries, Everything) + FundsTotal(b.funds) == Total(b.entries, Minted)
  }

  ghost predicate SignsRight(entries: seq<Entry>) {
    forall e <- entries ::
      && (e.kind.TaskFund? ==> e.amount < 0)
      && (e.kind.TaskPayout? || e.kind.TaskRefund? || e.kind.SignupGrant? || e.kind.ManualAdjustment? ==> e.amount > 0)
  }

  ghost predicate BookInv(b: Book) {
    && NoOverdraft(b)
    && FundsAgree(b)
    && FundsPositive(b)
    && KeysUnique(b.entries)
    && Conserved(b)
    && SignsRight(b.entries)
  }

  // ---- sums ----

  lemma TotalAppend(s: seq<Entry>, e: Entry, sel: Selector)
    ensures Total(s + [e], sel) == Total(s, sel) + Weight(sel, e)
  {
    assert (s + [e])[..|s|] == s;
  }

  lemma SumPick(funds: map<TaskId, Fund>, tasks: set<TaskId>, t: TaskId)
    requires tasks <= funds.Keys && t in tasks
    ensures SumOver(funds, tasks) == funds[t].amount + SumOver(funds, tasks - {t})
  {
    var p :| p in tasks && SumOver(funds, tasks) == funds[p].amount + SumOver(funds, tasks - {p});
    if p != t {
      SumPick(funds, tasks - {p}, t);
      SumPick(funds, tasks - {t}, p);
      assert tasks - {p} - {t} == tasks - {t} - {p};
    }
  }

  lemma SumSame(m: map<TaskId, Fund>, n: map<TaskId, Fund>, tasks: set<TaskId>)
    requires tasks <= m.Keys && tasks <= n.Keys && forall t <- tasks :: m[t] == n[t]
    ensures SumOver(m, tasks) == SumOver(n, tasks)
  {
    if tasks != {} {
      var t :| t in tasks;
      SumPick(m, tasks, t);
      SumPick(n, tasks, t);
      SumSame(m, n, tasks - {t});
    }
  }

  function Amount(funds: map<TaskId, Fund>, t: TaskId): int {
    if t in funds then funds[t].amount else 0
  }

  /** Two fund tables that agree away from one task differ by what that task holds. */
  lemma FundsTotalDiffer(m: map<TaskId, Fund>, n: map<TaskId, Fund>, t: TaskId)
    requires m - {t} == n - {t}
    ensures FundsTotal(n) - FundsTotal(m) == Amount(n, t) - Amount(m, t)
  {
    assert m.Keys - {t} == (m - {t}).Keys == (n - {t}).Keys == n.Keys - {t};
    forall k | k in m.Keys - {t} ensures m[k] == n[k] {
      assert m[k] == (m - {t})[k] == (n - {t})[k];
    }
    SumSame(m, n, m.Keys - {t});
    if t in m { SumPick(m, m.Keys, t); } else { assert m.Keys - {t} == m.Keys; }
    if t in n { SumPick(n, n.Keys, t); } else { assert n.Keys - {t} == n.Keys; }
  }

  /** One insert changes each sum by the weight of the new entry, and keeps keys unique. */
  lemma InsertEffect(b: Book, e: Entry)
    requires Insert(b, e).Ok?
    ensures var c := Insert(b, e).value;
      && c.funds == b.funds
      && c.entries == b.entries + [e]
      && (forall sel :: Total(c.entries, sel) == Total(b.entries, sel) + Weight(sel, e))
      && (forall a :: Balance(c, a) == Balance(b, a) + Weight(OnAccount(a), e))
      && (KeysUnique(b.entries) ==> KeysUnique(c.entries))
  {
    forall sel ensures Total(b.entries + [e], sel) == Total(b.entries, sel) + Weight(sel, e) {
      TotalAppend(b.entries, e, sel);
    }
  }

  // ---- what each move does, and that it keeps the invariant ----

  ghost predicate Grows(b: Book, c: Book) {
    b.entries <= c.entries
  }

  lemma GrowsTransitive(a: Book, b: Book, c: Book)
    requires Grows(a, b) && Grows(b, c)
    ensures Grows(a, c)
  {
  }

  lemma MovesGrow(b: Book, kind: Kind, task: Option<TaskId>, from: Party, to: Party, amount: CreditAmount, debitKey: Key, creditKey: Key)
    requires Move(b, kind, task, from, to, amount, debitKey, creditKey).Ok?
    ensures Grows(b, Move(b, kind, task, from, to, amount, debitKey, creditKey).value)
  {
  }

  lemma PayReviewGrows(b: Book, task: TaskId, worker: Party, hasAccount: bool, selection: Selection, key: Key, close: bool)
    requires PayReview(b, task, worker, hasAccount, selection, key, close).Ok?
    ensures Grows(b, PayReview(b, task, worker, hasAccount, selection, key, close).value.0)
  {
  }

  function If(c: bool, n: int): int {
    if c then n else 0
  }

  lemma MintEffect(b: Book, kind: Kind, account: Party, amount: CreditAmount, key: Key)
    requires BookInv(b) && (kind.SignupGrant? || kind.ManualAdjustment?)
    requires Mint(b, kind, account, amount, key).Ok?
    ensures var c := Mint(b, kind, account, amount, key).value;
      && BookInv(c) && Grows(b, c) && c.funds == b.funds
      && (forall a :: Balance(c, a) == Balance(b, a) + If(a == account, amount))
      && Total(c.entries, Minted) == Total(b.entries, Minted) + amount
  {
    InsertEffect(b, Entry(account, kind, amount, None, Some(key)));
  }

  lemma AllocateEffect(b: Book, task: TaskId, funder: Party, amount: CreditAmount, key: Key)
    requires BookInv(b) && Allocate(b, task, funder, amount, key).Ok?
    ensures var c := Allocate(b, task, funder, amount, key).value;
      && BookInv(c) && Grows(b, c) && task !in b.funds && c.funds == b.funds[task := Fund(funder, amount)]
      && (forall a :: Balance(c, a) == Balance(b, a) - If(a == funder, amount))
      && Total(c.entries, Minted) == Total(b.entries, Minted)
  {
    var row := b.(funds := b.funds[task := Fund(funder, amount)]);
    var c := Allocate(b, task, funder, amount, key).value;
    InsertEffect(row, Entry(funder, TaskFund, -(amount as int), Some(task), Some(key)));
    FundsTotalDiffer(b.funds, row.funds, task);
    forall t ensures Held(c, t) == -Total(c.entries, OnTask(t)) {
      assert Held(b, t) == -Total(b.entries, OnTask(t));
    }
    forall a ensures Balance(c, a) == Balance(b, a) - If(a == funder, amount) >= 0 {
      assert Balance(row, a) == Balance(b, a) >= 0;
    }
  }

  /** A debit and a credit that cancel, and concern no fund, leave every fund's agreement and circulation alone. */
  lemma BalancedMove(b: Book, c: Book, debit: Entry, credit: Entry)
    requires FundsAgree(b) && Conserved(b) && c.funds == b.funds
    requires debit.amount + credit.amount == 0
    requires forall e :: e == debit || e == credit ==> e.kind.TaskTip? || e.kind.PeerTransfer?
    requires forall sel :: Total(c.entries, sel) == Total(b.entries, sel) + Weight(sel, debit) + Weight(sel, credit)
    ensures FundsAgree(c) && Conserved(c)
  {
    hide Total;
    forall t ensures Held(c, t) == -Total(c.entries, OnTask(t)) {
      assert Held(b, t) == -Total(b.entries, OnTask(t));
    }
  }

  lemma MoveEffect(b: Book, kind: Kind, task: Option<TaskId>, from: Party, to: Party, amount: CreditAmount, debitKey: Key, creditKey: Key)
    requires BookInv(b) && (kind.TaskTip? || kind.PeerTransfer?)
    requires Move(b, kind, task, from, to, amount, debitKey, creditKey).Ok?
    ensures var c := Move(b, kind, task, from, to, amount, debitKey, creditKey).value;
      && BookInv(c) && Grows(b, c) && c.funds == b.funds
      && (forall a :: Balance(c, a) == Balance(b, a) - If(a == from, amount) + If(a == to, amount))
      && Total(c.entries, Minted) == Total(b.entries, Minted)
  {
    hide Total, FundsAgree, Conserved, KeysUnique;
    var debit := Entry(from, kind, -(amount as int), task, Some(debitKey));
    var credit := Entry(to, kind, amount, task, Some(creditKey));
    InsertEffect(b, debit);
    var debited := Insert(b, debit).value;
    InsertEffect(debited, credit);
    var c := Insert(debited, credit).value;
    BalancedMove(b, c, debit, credit);
    forall a ensures Balance(c, a) >= 0 {
      assert Balance(b, a) >= 0;
    }
  }

  lemma ReturnEffect(b: Book, task: TaskId, key: Option<Key>)
    requires BookInv(b) && Return(b, task, key).Ok?
    ensures var c := Return(b, task, key).value;
      && BookInv(c) && Grows(b, c) && c.funds == b.funds - {task}
      && (forall a :: Balance(c, a) == Balance(b, a) + If(task in b.funds && a == b.funds[task].funder, Held(b, task)))
      && Total(c.entries, Minted) == Total(b.entries, Minted)
  {
    if task in b.funds {
      InsertEffect(b, Entry(b.funds[task].funder, TaskRefund, b.funds[task].amount, Some(task), key));
      FundsTotalDiffer(b.funds, b.funds - {task}, task);
    }
  }

  /** The rows a review payment writes: a payout, the rest's refund when it closes, and what is left of the fund. */
  lemma PayReviewRows(b: Book, task: TaskId, worker: Party, hasAccount: bool, selection: Selection, key: Key, close: bool)
    requires FundsPositive(b) && PayReview(b, task, worker, hasAccount, selection, key, close).Ok?
    ensures var (c, paid) := PayReview(b, task, worker, hasAccount, selection, key, close).value;
      && (paid.None? <==> selection.NoCredit? || task !in b.funds)
      && (paid.None? ==> c == b)
      && (paid.Some? ==>
            var fund := b.funds[task];
            var rest := fund.amount - paid.value;
            && rest >= 0
            && paid.value == (if selection.Partial? then selection.amount else fund.amount)
            && c.entries == b.entries + [Entry(worker, TaskPayout, paid.value, Some(task), Some(key))]
                            + (if close && rest > 0 then [Entry(fund.funder, TaskRefund, rest, Some(task), None)] else [])
            && Find(b.entries, worker, key).None?
            && c.funds == (if close || rest == 0 then b.funds - {task} else b.funds[task := fund.(amount := rest)]))
  {
  }

  lemma KeysUniqueAppended(entries: seq<Entry>, e: Entry)
    requires KeysUnique(entries) && (e.key.None? || Find(entries, e.account, e.key.value).None?)
    ensures KeysUnique(entries + [e])
  {
  }

  lemma PayReviewKeysUnique(b: Book, task: TaskId, worker: Party, hasAccount: bool, selection: Selection, key: Key, close: bool)
    requires FundsPositive(b) && KeysUnique(b.entries) && PayReview(b, task, worker, hasAccount, selection, key, close).Ok?
    ensures KeysUnique(PayReview(b, task, worker, hasAccount, selection, key, close).value.0.entries)
  {
    hide PayReview, FundsPositive, KeysUnique;
    PayReviewRows(b, task, worker, hasAccount, selection, key, close);
    var (c, paid) := PayReview(b, task, worker, hasAccount, selection, key, close).value;
    if paid.Some? {
      var payout := Entry(worker, TaskPayout, paid.value, Some(task), Some(key));
      var refund := Entry(b.funds[task].funder, TaskRefund, b.funds[task].amount - paid.value, Some(task), None);
      KeysUniqueAppended(b.entries, payout);
      KeysUniqueAppended(b.entries + [payout], refund);
      assert b.entries + [payout] + [] == b.entries + [payout];
    }
  }

  /** What the entries of a review payment do to a sum. */
  lemma PayReviewSum(b: Book, task: TaskId, worker: Party, hasAccount: bool, selection: Selection, key: Key, close: bool, sel: Selector)
    requires FundsPositive(b) && PayReview(b, task, worker, hasAccount, selection, key, close).Ok?
    ensures var (c, paid) := PayReview(b, task, worker, hasAccount, selection, key, close).value;
      paid.Some? ==>
        var payout := Entry(worker, TaskPayout, paid.value, Some(task), Some(key));
        && task in b.funds
        && var refund := Entry(b.funds[task].funder, TaskRefund, b.funds[task].amount - paid.value, Some(task), None);
        Total(c.entries, sel) == Total(b.entries, sel) + Weight(sel, payout) + If(close, Weight(sel, refund))
  {
    hide PayReview, FundsPositive, Total;
    PayReviewRows(b, task, worker, hasAccount, selection, key, close);
    var (c, paid) := PayReview(b, task, worker, hasAccount, selection, key, close).value;
    if paid.Some? {
      var payout := Entry(worker, TaskPayout, paid.value, Some(task), Some(key));
      var refund := Entry(b.funds[task].funder, TaskRefund, b.funds[task].amount - paid.value, Some(task), None);
      TotalAppend(b.entries, payout, sel);
      TotalAppend(b.entries + [payout], refund, sel);
      assert b.entries + [payout] + [] == b.entries + [payout];
    }
  }

  lemma PayReviewBalance(b: Book, task: TaskId, worker: Party, hasAccount: bool, selection: Selection, key: Key, close: bool, a: Party)
    requires FundsPositive(b) && PayReview(b, task, worker, hasAccount, selection, key, close).Ok?
    ensures var (c, paid) := PayReview(b, task, worker, hasAccount, selection, key, close).value;
      paid.Some? ==>
        && task in b.funds
        && Balance(c, a) == Balance(b, a) + If(a == worker, paid.value) + If(close && a == b.funds[task].funder, b.funds[task].amount - paid.value)
  {
    hide PayReview, FundsPositive, Total;
    PayReviewSum(b, task, worker, hasAccount, selection, key, close, OnAccount(a));
  }

  /** A review payment moves exactly what it reports to the worker and, on closing, the rest to the funder. */
  lemma PayReviewEffect(b: Book, task: TaskId, worker: Party, hasAccount: bool, selection: Selection, key: Key, close: bool)
    requires BookInv(b) && PayReview(b, task, worker, hasAccount, selection, key, close).Ok?
    ensures var (c, paid) := PayReview(b, task, worker, hasAccount, selection, key, close).value;
      && Grows(b, c)
      && Total(c.entries, Minted) == Total(b.entries, Minted)
      && (paid.None? <==> selection.NoCredit? || task !in b.funds)
      && (paid.None? ==> c == b)
      && (paid.Some? ==>
            var fund := b.funds[task];
            var rest := fund.amount - paid.value;
            && rest >= 0
            && paid.value == (if selection.Partial? then selection.amount else fund.amount)
            && c.funds == (if close || rest == 0 then b.funds - {task} else b.funds[task := fund.(amount := rest)])
            && (forall a :: Balance(c, a) == Balance(b, a) + If(a == worker, paid.value) + If(close && a == fund.funder, rest)))
  {
    hide PayReview, NoOverdraft, FundsAgree, FundsPositive, Conserved, SignsRight, KeysUnique, Balance, Total;
    var (c, paid) := PayReview(b, task, worker, hasAccount, selection, key, close).value;
    PayReviewRows(b, task, worker, hasAccount, selection, key, close);
    PayReviewSum(b, task, worker, hasAccount, selection, key, close, Minted);
    forall a { PayReviewBalance(b, task, worker, hasAccount, selection, key, close, a); }
  }

  /** A payment out of a fund and the row it leaves keep row and ledger in agreement, and circulation unchanged. */
  lemma PayReviewBalances(b: Book, c: Book, task: TaskId, worker: Party, paid: CreditAmount, key: Key, close: bool)
    requires BookInv(b) && task in b.funds && paid <= b.funds[task].amount
    requires var fund := b.funds[task];
      var payout := Entry(worker, TaskPayout, paid, Some(task), Some(key));
      var refund := Entry(fund.funder, TaskRefund, fund.amount - paid, Some(task), None);
      && (forall sel :: Total(c.entries, sel) == Total(b.entries, sel) + Weight(sel, payout) + If(close, Weight(sel, refund)))
      && c.funds == if close || paid == fund.amount then b.funds - {task} else b.funds[task := fund.(amount := fund.amount - paid)]
    ensures FundsAgree(c) && Conserved(c) && NoOverdraft(c)
  {
    assert Conserved(c) by { FundsTotalDiffer(b.funds, c.funds, task); }
    forall t ensures Held(c, t) == -Total(c.entries, OnTask(t)) {
      assert Held(b, t) == -Total(b.entries, OnTask(t));
    }
    forall a ensures Balance(c, a) >= 0 {
      assert Balance(b, a) >= 0;
    }
  }

  lemma PayReviewKeeps(b: Book, task: TaskId, worker: Party, hasAccount: bool, selection: Selection, key: Key, close: bool)
    requires BookInv(b) && PayReview(b, task, worker, hasAccount, selection, key, close).Ok?
    ensures BookInv(PayReview(b, task, worker, hasAccount, selection, key, close).value.0)
  {
    hide PayReview, FundsAgree, Conserved, NoOverdraft, KeysUnique, Total;
    var (c, paid) := PayReview(b, task, worker, hasAccount, selection, key, close).value;
    PayReviewRows(b, task, worker, hasAccount, selection, key, close);
    PayReviewKeysUnique(b, task, worker, hasAccount, selection, key, close);
    forall sel { PayReviewSum(b, task, worker, hasAccount, selection, key, close, sel); }
    if paid.Some? {
      PayReviewBalances(b, c, task, worker, paid.value, key, close);
    }
  }

  /** What was funded is what was paid, refunded and is still held; so payouts never exceed funding. */
  lemma {:induction false} FundingAccounted(entries: seq<Entry>, task: TaskId)
    ensures Total(entries, OnTask(task))
         == Total(entries, OfKind(TaskFund, task)) + Total(entries, OfKind(TaskPayout, task)) + Total(entries, OfKind(TaskRefund, task))
    ensures SignsRight(entries) ==> Total(entries, OfKind(TaskRefund, task)) >= 0
  {
    if entries != [] {
      FundingAccounted(entries[..|entries| - 1], task);
    }
  }

  lemma PayoutsWithinFunding(b: Book, task: TaskId)
    requires BookInv(b)
    ensures Total(b.entries, OfKind(TaskPayout, task)) + Total(b.entries, OfKind(TaskRefund, task)) + Held(b, task)
         == -Total(b.entries, OfKind(TaskFund, task))
    ensures Total(b.entries, OfKind(TaskPayout, task)) <= -Total(b.entries, OfKind(TaskFund, task))
  {
    FundingAccounted(b.entries, task);
    assert Held(b, task) == -Total(b.entries, OnTask(task));
  }

  // ---- spendable and allocated credits of one account ----

  /** Two fund tables that agree away from one task give an account allocations that differ by its part in that task. */
  lemma AllocatedDiffer(m: map<TaskId, Fund>, n: map<TaskId, Fund>, task: TaskId, a: Party)
    requires m - {task} == n - {task}
    ensures SumOver(n, FundedBy(n, a)) - SumOver(m, FundedBy(m, a))
         == If(task in n && n[task].funder == a, Amount(n, task)) - If(task in m && m[task].funder == a, Amount(m, task))
  {
    var rest := FundedBy(m, a) - {task};
    forall t | t != task ensures (t in m <==> t in n) && (t in m ==> m[t] == n[t]) {
      assert t in m <==> t in m - {task};
      assert t in n <==> t in n - {task};
      if t in m { assert (m - {task})[t] == m[t] && (n - {task})[t] == n[t]; }
    }
    assert rest == FundedBy(n, a) - {task};
    SumSame(m, n, rest);
    if task in FundedBy(m, a) { SumPick(m, FundedBy(m, a), task); } else { assert FundedBy(m, a) == rest; }
    if task in FundedBy(n, a) { SumPick(n, FundedBy(n, a), task); } else { assert FundedBy(n, a) == rest; }
  }

  /** Funding a task changes no one's spendable and allocated credits together: they only move from one to the other. */
  lemma AllocateKeepsWorth(b: Book, task: TaskId, funder: Party, amount: CreditAmount, key: Key, a: Party)
    requires BookInv(b) && Allocate(b, task, funder, amount, key).Ok?
    ensures var c := Allocate(b, task, funder, amount, key).value;
      Balance(c, a) + AllocatedBy(c, a) == Balance(b, a) + AllocatedBy(b, a)
  {
    hide BookInv, Balance;
    AllocateEffect(b, task, funder, amount, key);
    var c := Allocate(b, task, funder, amount, key).value;
    hide Allocate;
    assert c.funds - {task} == b.funds - {task};
    AllocatedDiffer(b.funds, c.funds, task, a);
  }

  /** Nor does returning a fund. */
  lemma ReturnKeepsWorth(b: Book, task: TaskId, key: Option<Key>, a: Party)
    requires BookInv(b) && Return(b, task, key).Ok?
    ensures var c := Return(b, task, key).value;
      Balance(c, a) + AllocatedBy(c, a) == Balance(b, a) + AllocatedBy(b, a)
  {
    hide BookInv, Balance;
    ReturnEffect(b, task, key);
    var c := Return(b, task, key).value;
    hide Return;
    assert c.funds - {task} == b.funds - {task};
    AllocatedDiffer(b.funds, c.funds, task, a);
  }

  /** A review payment takes exactly what it pays off the funder's, and adds it to the worker's. */
  lemma PayReviewMovesWorth(b: Book, task: TaskId, worker: Party, hasAccount: bool, selection: Selection, key: Key, close: bool, a: Party)
    requires BookInv(b) && PayReview(b, task, worker, hasAccount, selection, key, close).Ok?
    ensures var (c, paid) := PayReview(b, task, worker, hasAccount, selection, key, close).value;
      var moved := if paid.Some? then paid.value as int else 0;
      && (paid.Some? ==> task in b.funds)
      && Balance(c, a) + AllocatedBy(c, a)
         == Balance(b, a) + AllocatedBy(b, a) + If(a == worker, moved) - If(paid.Some? && a == b.funds[task].funder, moved)
  {
    hide BookInv, Balance, PayReview;
    var (c, paid) := PayReview(b, task, worker, hasAccount, selection, key, close).value;
    PayReviewEffect(b, task, worker, hasAccount, selection, key, close);
    if paid.Some? {
      assert c.funds - {task} == b.funds - {task};
      AllocatedDiffer(b.funds, c.funds, task, a);
    }
  }
}
