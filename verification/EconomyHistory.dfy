/**
 Histories: which task states are final and when they are not, what a stranded
 fund does, what a replayed accept reports, and how a collectible changes hands.
 */
module EconomyHistory {
  import opened Prelude
  import opened Economy
  import opened EconomyInvariant
  import opened EconomyTheorems
  import B = Book
  import V = Vault

  // ---- final states ----

  predicate Final(s: TaskState) {
    s.Closed? || s.Cancelled? || s.Expired?
  }

  /** The service's unlocked read was still true when the store's transaction ran. */
  predicate Current(w: World, c: Command) {
    c.ChangeState? && c.task in w.tasks ==> c.seen == w.tasks[c.task].state
  }

  ghost predicate CurrentRun(w: World, commands: seq<Command>) {
    forall i | 0 <= i < |commands| :: Current(Run(w, commands[..i]), commands[i])
  }

  lemma ReviewsLeaveFinalTasks(w: World, c: Command, t: TaskId)
    requires t in w.tasks && Final(w.tasks[t].state) && (c.Accept? || c.Reject? || c.RequestChanges?) && Transact(w, c).Ok?
    ensures t in Transact(w, c).value.0.tasks && Transact(w, c).value.0.tasks[t] == w.tasks[t]
  {
  }

  lemma CreditsLeaveFinalTasks(w: World, c: Command, t: TaskId)
    requires t in w.tasks && Final(w.tasks[t].state) && Transact(w, c).Ok?
    requires c.Fund? || c.Send? || c.Grant? || c.SignupGrant? || c.OrganizationGrant? || c.OpenAccount?
    ensures t in Transact(w, c).value.0.tasks && Transact(w, c).value.0.tasks[t] == w.tasks[t]
  {
  }

  lemma SettlingLeavesFinalTasks(w: World, c: Command, t: TaskId)
    requires t in w.tasks && Final(w.tasks[t].state) && Transact(w, c).Ok?
    requires c.Refund? || c.RefundCollectible? || c.Expire? || c.Submit? || c.CreateTask? || c.FundCollectible?
    ensures t in Transact(w, c).value.0.tasks && Transact(w, c).value.0.tasks[t] == w.tasks[t]
  {
  }

  lemma CollectiblesLeaveTasks(w: World, c: Command)
    requires CollectibleTx(w, c).Ok?
    ensures CollectibleTx(w, c).value.0.tasks == w.tasks
  {
  }

  lemma StateChangeApplies(w: World, c: Command)
    requires B.FundsPositive(w.book) && c.ChangeState? && c.task in w.tasks
    ensures var (w', target) := (Step(w, c).0, TransitionTarget(c.seen, c.transition));
      w'.tasks == if target.Ok? && (target.value.Open? ==> Openable(w, c.task))
                  then w.tasks[c.task := w.tasks[c.task].(state := target.value)] else w.tasks
  {
  }

  /** A closed, cancelled or expired task leaves that state exactly when a state change acts on a stale read. */
  lemma FinalLeftOnlyByStaleRead(w: World, c: Command, t: TaskId)
    requires WorldInv(w) && t in w.tasks && Final(w.tasks[t].state)
    ensures t in Step(w, c).0.tasks
    ensures Step(w, c).0.tasks[t] != w.tasks[t] <==>
            && c.ChangeState? && c.task == t
            && var target := TransitionTarget(c.seen, c.transition);
            && target.Ok? && target.value != w.tasks[t].state && (target.value.Open? ==> Openable(w, t))
  {
    if c.ChangeState? {
      if c.task in w.tasks { StateChangeApplies(w, c); }
    } else if Transact(w, c).Ok? {
      hide TransitionTarget, Openable;
      if c.Accept? || c.Reject? || c.RequestChanges? { hide AcceptTx, RejectTx, RequestChangesTx; ReviewsLeaveFinalTasks(w, c, t); }
      else if c.Fund? || c.Send? || c.Grant? || c.SignupGrant? || c.OrganizationGrant? || c.OpenAccount? { CreditsLeaveFinalTasks(w, c, t); }
      else if c.Refund? || c.RefundCollectible? || c.Expire? || c.Submit? || c.CreateTask? || c.FundCollectible? { SettlingLeavesFinalTasks(w, c, t); }
      else { hide CollectibleTx; CollectiblesLeaveTasks(w, c); }
    }
  }

  ghost predicate SameFund(b: B.Book, c: B.Book, t: TaskId) {
    (t in c.funds <==> t in b.funds) && (t in b.funds ==> c.funds[t] == b.funds[t])
  }

  lemma FinalKeepsFundUnderReview(w: World, c: Command, t: TaskId)
    requires WorldInv(w) && t in w.tasks && Final(w.tasks[t].state) && (c.Accept? || c.Reject?) && Transact(w, c).Ok?
    ensures SameFund(w.book, Transact(w, c).value.0.book, t)
  {
    if !Transact(w, c).value.1.replay {
      if c.Accept? {
        AcceptClearsFundUnlessNoCredit(w, c.review);
      } else {
        RejectMovesCredits(w, c.review, User(0));
        var f: map<TaskId, B.Fund> := w.book.funds;
        var g: map<TaskId, B.Fund> := Transact(w, c).value.0.book.funds;
        var rid: TaskId := c.review.task;
        assert t in f <==> t in f - {rid};
        assert t in g <==> t in g - {rid};
        if t in f { assert f[t] == (f - {rid})[t] == (g - {rid})[t] == g[t]; }
      }
    }
  }

  lemma FinalKeepsFundUnderFunding(w: World, c: Command, t: TaskId)
    requires t in w.tasks && Final(w.tasks[t].state) && (c.Fund? || c.Send?) && Transact(w, c).Ok?
    ensures SameFund(w.book, Transact(w, c).value.0.book, t)
  {
  }

  lemma FinalKeepsFundUnderSettling(w: World, c: Command, t: TaskId)
    requires t in w.tasks && Final(w.tasks[t].state) && (c.Refund? || c.Expire?) && Transact(w, c).Ok?
    ensures SameFund(w.book, Transact(w, c).value.0.book, t)
  {
  }

  lemma FinalKeepsFundUnderStateChange(w: World, c: Command, t: TaskId)
    requires t in w.tasks && Final(w.tasks[t].state) && c.ChangeState? && Current(w, c) && Transact(w, c).Ok?
    ensures SameFund(w.book, Transact(w, c).value.0.book, t)
  {
  }

  lemma FinalKeepsFundUnderGrants(w: World, c: Command, t: TaskId)
    requires (c.Grant? || c.SignupGrant? || c.OrganizationGrant?) && Transact(w, c).Ok?
    ensures SameFund(w.book, Transact(w, c).value.0.book, t)
  {
  }

  /** While reads are current, a final task and whatever fund row it has are frozen. */
  lemma FinalIsFrozen(w: World, c: Command, t: TaskId)
    requires WorldInv(w) && t in w.tasks && Final(w.tasks[t].state) && Current(w, c)
    ensures var w' := Step(w, c).0;
      t in w'.tasks && w'.tasks[t] == w.tasks[t] && SameFund(w.book, w'.book, t)
  {
    FinalLeftOnlyByStaleRead(w, c, t);
    if Transact(w, c).Ok? {
      if c.Accept? || c.Reject? { FinalKeepsFundUnderReview(w, c, t); }
      else if c.Fund? || c.Send? { FinalKeepsFundUnderFunding(w, c, t); }
      else if c.Refund? || c.Expire? { FinalKeepsFundUnderSettling(w, c, t); }
      else if c.ChangeState? { FinalKeepsFundUnderStateChange(w, c, t); }
      else if MovesCredits(c) { FinalKeepsFundUnderGrants(w, c, t); }
      else { OthersLeaveBook(w, c); }
    }
  }

  lemma {:induction false} FinalIsFrozenInRun(w: World, commands: seq<Command>, i: nat, j: nat, t: TaskId)
    requires WorldInv(w) && CurrentRun(w, commands) && i <= j <= |commands|
    requires var v := Run(w, commands[..i]); t in v.tasks && Final(v.tasks[t].state)
    ensures var v := Run(w, commands[..i]); var v' := Run(w, commands[..j]);
      t in v'.tasks && v'.tasks[t] == v.tasks[t] && SameFund(v.book, v'.book, t)
    decreases j
  {
    hide Step, Transact, WorldInv, Current;
    if i < j {
      FinalIsFrozenInRun(w, commands, i, j - 1, t);
      RunKeeps(w, commands[..j - 1]);
      assert commands[..j][..j - 1] == commands[..j - 1];
      FinalIsFrozen(Run(w, commands[..j - 1]), commands[j - 1], t);
    }
  }

  lemma FirstRefundCancels(w: World, c: Command)
    requires c.Refund? && FirstTime(Step(w, c).1)
    ensures c.task in w.tasks && !Final(w.tasks[c.task].state)
    ensures c.task in Step(w, c).0.tasks && Step(w, c).0.tasks[c.task].state.Cancelled?
  {
  }

  /** With current reads a task is refunded at most once in a run. */
  lemma RefundedAtMostOnce(w: World, commands: seq<Command>, i: nat, j: nat)
    requires WorldInv(w) && CurrentRun(w, commands) && i < j < |commands|
    requires commands[i].Refund? && commands[j].Refund? && commands[i].task == commands[j].task
    requires FirstTime(ReplyAt(w, commands, i))
    ensures !FirstTime(ReplyAt(w, commands, j))
  {
    assert commands[..i + 1][..i] == commands[..i];
    FirstRefundCancels(Run(w, commands[..i]), commands[i]);
    FinalIsFrozenInRun(w, commands, i + 1, j, commands[i].task);
    if FirstTime(ReplyAt(w, commands, j)) {
      FirstRefundCancels(Run(w, commands[..j]), commands[j]);
    }
  }

  /**
   With a stale read it can be refunded again: an unpublish that read `open`
   before the refund turns the cancelled task back into a draft, which can be
   funded and refunded under new keys.
   */
  lemma StaleUnpublishAllowsSecondRefund(w: World, t: TaskId, amount: CreditAmount, fundKey: Key, refundKey: Key)
    requires WorldInv(w) && t in w.tasks && w.tasks[t].state.Cancelled? && w.tasks[t].reward.CreditReward? && w.tasks[t].declared == amount
    requires var payer := User(w.tasks[t].creator); payer in w.accounts && B.Balance(w.book, payer) >= amount
    requires fundKey != refundKey
    requires B.Find(w.book.entries, User(w.tasks[t].creator), fundKey).None? && B.Find(w.book.entries, User(w.tasks[t].creator), refundKey).None?
    requires !KeyOnTask(w.book.entries, t, refundKey)
    ensures var u := w.tasks[t].creator;
      var w1 := Step(w, ChangeState(t, Open, Unpublishing, {})).0;
      var w2 := Step(w1, Fund(User(u), t, amount, fundKey, u, true)).0;
      FirstTime(Step(w2, Refund(u, t, refundKey, false, {})).1)
  {
    var u := w.tasks[t].creator;
    var w1 := Step(w, ChangeState(t, Open, Unpublishing, {})).0;
    assert w1.book == w.book && w1.tasks == w.tasks[t := w.tasks[t].(state := Draft)] && w1.accounts == w.accounts;
    FundsDraft(w1, t, amount, fundKey);
    var w2 := Step(w1, Fund(User(u), t, amount, fundKey, u, true)).0;
    assert B.Find(w2.book.entries, User(u), refundKey).None? by {
      assert w2.book.entries[..|w.book.entries|] == w.book.entries;
    }
    RefundsDraft(w2, t, refundKey);
  }

  lemma FundsDraft(w: World, t: TaskId, amount: CreditAmount, key: Key)
    requires t in w.tasks && w.tasks[t].state.Draft? && w.tasks[t].reward.CreditReward? && w.tasks[t].declared == amount && t !in w.book.funds
    requires var payer := User(w.tasks[t].creator); payer in w.accounts && B.Balance(w.book, payer) >= amount && B.Find(w.book.entries, payer, key).None?
    ensures var u := w.tasks[t].creator;
      var w' := Step(w, Fund(User(u), t, amount, key, u, true)).0;
      && w'.book.entries == w.book.entries + [B.Entry(User(u), B.TaskFund, -(amount as int), Some(t), Some(key))]
      && w'.book.funds == w.book.funds[t := B.Fund(User(u), amount)]
      && w'.tasks == w.tasks
  {
  }

  lemma RefundsDraft(w: World, t: TaskId, key: Key)
    requires t in w.tasks && w.tasks[t].state.Draft? && t in w.book.funds && w.book.funds[t].amount > 0
    requires !KeyOnTask(w.book.entries, t, key) && B.Find(w.book.entries, w.book.funds[t].funder, key).None?
    ensures FirstTime(Step(w, Refund(w.tasks[t].creator, t, key, false, {})).1)
  {
  }

  // ---- a refund is never replayed ----

  predicate KeyedRefund(e: B.Entry) {
    e.kind.TaskRefund? && e.key.Some?
  }

  /** Whatever carries a refund key belongs to a task that has reached a final state. */
  ghost predicate KeyedRefundsFinal(w: World) {
    forall e <- w.book.entries :: KeyedRefund(e) ==> e.task.Some? && e.task.value in w.tasks && Final(w.tasks[e.task.value].state)
  }

  /** What a command appends holds no keyed refund, unless of the task it names. */
  ghost predicate AppendsRefundsOf(b: B.Book, c: B.Book, task: Option<TaskId>) {
    && b.entries <= c.entries
    && forall k :: |b.entries| <= k < |c.entries| && KeyedRefund(c.entries[k]) ==> task.Some? && c.entries[k].task == task
  }

  lemma ReviewsAppendNoRefund(w: World, r: Review, worker: UserId, close: bool)
    requires B.FundsPositive(w.book)
    ensures var pay := B.PayReview(w.book, r.task, User(worker), User(worker) in w.accounts, r.selection, r.key, close);
      pay.Ok? && PayCreditTip(w, pay.value.0, r, worker).Ok? ==> AppendsRefundsOf(w.book, PayCreditTip(w, pay.value.0, r, worker).value, None)
  {
    var pay := B.PayReview(w.book, r.task, User(worker), User(worker) in w.accounts, r.selection, r.key, close);
    if pay.Ok? && PayCreditTip(w, pay.value.0, r, worker).Ok? {
      B.PayReviewRows(w.book, r.task, User(worker), User(worker) in w.accounts, r.selection, r.key, close);
      hide B.PayReview, B.FundsPositive;
      TipAppendsNoRefund(w, pay.value.0, r, worker);
    }
  }

  lemma TipAppendsNoRefund(w: World, book: B.Book, r: Review, worker: UserId)
    requires PayCreditTip(w, book, r, worker).Ok?
    ensures AppendsRefundsOf(book, PayCreditTip(w, book, r, worker).value, None)
  {
  }

  lemma AcceptAppendsNoRefund(w: World, c: Command)
    requires B.FundsPositive(w.book) && (c.Accept? || c.Reject?) && Transact(w, c).Ok?
    ensures AppendsRefundsOf(w.book, Transact(w, c).value.0.book, None)
  {
    hide AppendsRefundsOf;
    BookStays(w.book);
    if !Transact(w, c).value.1.replay {
      ReviewsAppendNoRefund(w, c.review, w.submissions[c.review.submission].worker, c.Accept?);
    }
  }

  lemma BookStays(b: B.Book)
    ensures AppendsRefundsOf(b, b, None)
  {
  }

  lemma GrantsAppendNoRefund(w: World, c: Command)
    requires (c.Grant? || c.SignupGrant? || c.OrganizationGrant?) && Transact(w, c).Ok?
    ensures AppendsRefundsOf(w.book, Transact(w, c).value.0.book, None)
  {
  }

  lemma SpendingAppendsNoRefund(w: World, c: Command)
    requires (c.Fund? || c.Send?) && Transact(w, c).Ok?
    ensures AppendsRefundsOf(w.book, Transact(w, c).value.0.book, None)
  {
  }

  /** The refund of a cancellation carries no key. */
  lemma CancellingAppendsNoKey(w: World, c: Command)
    requires c.ChangeState? && Transact(w, c).Ok?
    ensures AppendsRefundsOf(w.book, Transact(w, c).value.0.book, None)
  {
  }

  lemma SettlingAppendsItsRefund(w: World, c: Command)
    requires (c.Refund? || c.Expire?) && Transact(w, c).Ok?
    ensures AppendsRefundsOf(w.book, Transact(w, c).value.0.book, Some(c.task))
    ensures Transact(w, c).value.0 == w || (c.task in Transact(w, c).value.0.tasks && Final(Transact(w, c).value.0.tasks[c.task].state))
  {
  }

  function RefundedBy(c: Command): Option<TaskId> {
    if c.Refund? || c.Expire? then Some(c.task) else None
  }

  lemma StepAppendsRefunds(w: World, c: Command)
    requires B.FundsPositive(w.book)
    ensures AppendsRefundsOf(w.book, Step(w, c).0.book, RefundedBy(c))
    ensures RefundedBy(c).Some? && Step(w, c).0 != w ==> c.task in Step(w, c).0.tasks && Final(Step(w, c).0.tasks[c.task].state)
  {
    if Transact(w, c).Ok? {
      if c.Accept? || c.Reject? { AcceptAppendsNoRefund(w, c); }
      else if c.Refund? || c.Expire? { SettlingAppendsItsRefund(w, c); }
      else if c.ChangeState? { CancellingAppendsNoKey(w, c); }
      else if c.Fund? || c.Send? { SpendingAppendsNoRefund(w, c); }
      else if MovesCredits(c) { GrantsAppendNoRefund(w, c); }
      else { OthersLeaveBook(w, c); }
    }
  }

  lemma KeyedRefundsStep(w: World, c: Command)
    requires WorldInv(w) && KeyedRefundsFinal(w) && Current(w, c)
    ensures KeyedRefundsFinal(Step(w, c).0)
  {
    StepAppendsRefunds(w, c);
    var w' := Step(w, c).0;
    hide Step, WorldInv, Current;
    if w' != w {
      forall e | e in w'.book.entries && KeyedRefund(e)
        ensures e.task.Some? && e.task.value in w'.tasks && Final(w'.tasks[e.task.value].state)
      {
        var k :| 0 <= k < |w'.book.entries| && w'.book.entries[k] == e;
        if k < |w.book.entries| {
          assert e == w.book.entries[k] && e in w.book.entries;
          FinalIsFrozen(w, c, e.task.value);
        }
      }
    }
  }

  lemma {:induction false} KeyedRefundsAfterRun(commands: seq<Command>, i: nat)
    requires CurrentRun(EMPTY, commands) && i <= |commands|
    ensures KeyedRefundsFinal(Run(EMPTY, commands[..i])) && WorldInv(Run(EMPTY, commands[..i]))
  {
    hide Step, WorldInv, Current, KeyedRefundsFinal;
    EmptyKeeps();
    RunKeeps(EMPTY, commands[..i]);
    if i == 0 {
      NoRefundsYet(commands);
    } else {
      KeyedRefundsAfterRun(commands, i - 1);
      assert commands[..i][..i - 1] == commands[..i - 1];
      KeyedRefundsStep(Run(EMPTY, commands[..i - 1]), commands[i - 1]);
    }
  }

  lemma NoRefundsYet(commands: seq<Command>)
    ensures KeyedRefundsFinal(Run(EMPTY, commands[..0]))
  {
  }

  /**
   With current reads the branch that would replay a refund is never taken: a
   refunded task is no longer refundable, so a retry is refused.
   */
  lemma RefundIsNeverReplayed(commands: seq<Command>, i: nat)
    requires CurrentRun(EMPTY, commands) && i < |commands| && commands[i].Refund?
    ensures !Replayed(ReplyAt(EMPTY, commands, i))
  {
    KeyedRefundsAfterRun(commands, i);
    RefundReplaysNothingFinal(Run(EMPTY, commands[..i]), commands[i]);
  }

  lemma {:induction false} FoundRefund(entries: seq<B.Entry>, task: TaskId, key: Key)
    requires FindRefund(entries, task, key).Some?
    ensures var e := FindRefund(entries, task, key).value; e in entries && KeyedRefund(e) && e.task == Some(task)
  {
    if !(entries[0].kind.TaskRefund? && entries[0].task == Some(task) && entries[0].key == Some(key)) {
      FoundRefund(entries[1..], task, key);
    }
  }

  lemma RefundReplaysNothingFinal(w: World, c: Command)
    requires KeyedRefundsFinal(w) && c.Refund?
    ensures !Replayed(Step(w, c).1)
  {
    if FindRefund(w.book.entries, c.task, c.key).Some? {
      FoundRefund(w.book.entries, c.task, c.key);
    }
  }

  // ---- what a replayed accept reports ----

  lemma {:induction false} FindPayoutInPrefix(a: seq<B.Entry>, b: seq<B.Entry>, task: TaskId, key: Key)
    requires a <= b && FindPayout(a, task, key).Some?
    ensures FindPayout(b, task, key) == FindPayout(a, task, key)
  {
    if !(a[0].kind.TaskPayout? && a[0].task == Some(task) && a[0].key == Some(key)) {
      FindPayoutInPrefix(a[1..], b[1..], task, key);
    }
  }

  lemma {:induction false} FindPayoutAppended(a: seq<B.Entry>, e: B.Entry, task: TaskId, key: Key)
    requires e.kind.TaskPayout? && e.task == Some(task) && e.key == Some(key)
    ensures FindPayout(a + [e], task, key) == if FindPayout(a, task, key).Some? then FindPayout(a, task, key) else Some(e)
  {
    if a != [] {
      assert (a + [e])[1..] == a[1..] + [e];
      FindPayoutAppended(a[1..], e, task, key);
    }
  }

  /** What a paying accept pays out: what it selected, or all the fund holds. */
  function PaidBy(w: World, r: Review): int
    requires r.task in w.book.funds
  {
    if r.selection.Partial? then r.selection.amount else w.book.funds[r.task].amount
  }

  lemma AcceptRecordsPayout(w: World, r: Review)
    requires WorldInv(w) && AcceptTx(w, r).Ok? && !AcceptTx(w, r).value.1.replay
    requires r.task in w.book.funds && !r.selection.NoCredit?
    ensures var s := w.submissions[r.submission];
      w.book.entries + [B.Entry(User(s.worker), B.TaskPayout, PaidBy(w, r), Some(r.task), Some(r.key))] <= AcceptTx(w, r).value.0.book.entries
  {
    assert B.FundsPositive(w.book);
    hide WorldInv;
    var s := w.submissions[r.submission];
    var worker := User(s.worker);
    var paidBook := B.PayReview(w.book, r.task, worker, worker in w.accounts, r.selection, r.key, true).value.0;
    B.PayReviewRows(w.book, r.task, worker, worker in w.accounts, r.selection, r.key, true);
    TipGrows(w, paidBook, r, s.worker);
  }

  lemma AcceptMarks(w: World, r: Review)
    requires AcceptTx(w, r).Ok? && !AcceptTx(w, r).value.1.replay
    ensures var s := AcceptTx(w, r).value.0.submissions;
      && r.submission in s && r.submission in w.submissions && s[r.submission].task == r.task
      && s[r.submission] == w.submissions[r.submission].(state := Accepted, acceptKey := Some(r.key))
  {
  }

  lemma MarkedAcceptReplays(w: World, r: Review)
    requires r.submission in w.submissions && LockForReview(w, r.task, r.reviewer).Ok?
    requires var s := w.submissions[r.submission]; s.task == r.task && s.state.Accepted? && s.acceptKey == Some(r.key)
    ensures AcceptTx(w, r) == ReplayAccept(w, r, w.submissions[r.submission].worker)
  {
  }

  /**
   A retry of a paying accept, however much later, reports the credits first
   paid exactly when no earlier payout of another amount used the key on the task.
   */
  lemma RetriedAcceptReportsCredits(w: World, r: Review, later: World)
    requires WorldInv(w) && AcceptTx(w, r).Ok? && !AcceptTx(w, r).value.1.replay
    requires r.task in w.book.funds && !r.selection.NoCredit?
    requires B.Grows(AcceptTx(w, r).value.0.book, later.book)
    requires r.submission in later.submissions && later.submissions[r.submission] == AcceptTx(w, r).value.0.submissions[r.submission]
    requires LockForReview(later, r.task, r.reviewer).Ok?
    ensures AcceptTx(later, r).Ok? && AcceptTx(later, r).value.0 == later && AcceptTx(later, r).value.1.Reviewed?
    ensures var earlier := FindPayout(w.book.entries, r.task, r.key);
      AcceptTx(later, r).value.1.payout == CreditPayout(PaidBy(w, r)) <==> earlier.None? || earlier.value.amount == PaidBy(w, r)
  {
    AcceptRecordsPayout(w, r);
    AcceptMarks(w, r);
    MarkedAcceptReplays(later, r);
    hide AcceptTx, LockForReview, V.VaultInv, FundsPlaced, HoldsPlaced, OneAccepted;
    var payout := B.Entry(User(w.submissions[r.submission].worker), B.TaskPayout, PaidBy(w, r), Some(r.task), Some(r.key));
    FindPayoutAppended(w.book.entries, payout, r.task, r.key);
    FindPayoutInPrefix(w.book.entries + [payout], later.book.entries, r.task, r.key);
    var earlier := FindPayout(w.book.entries, r.task, r.key);
    if earlier.Some? { assert earlier.value.amount > 0; }
  }

  lemma TipGrows(w: World, book: B.Book, r: Review, worker: UserId)
    requires PayCreditTip(w, book, r, worker).Ok?
    ensures B.Grows(book, PayCreditTip(w, book, r, worker).value)
  {
    if r.tip.Some? {
      B.MovesGrow(book, B.TaskTip, Some(r.task), User(r.reviewer.user), User(worker), r.tip.value, r.key + ":tip-debit", r.key + ":tip-credit");
    }
  }

  // ---- how a collectible changes hands ----

  /**
   The policy table as one step obeys it: policies are fixed, and an escrowed or
   payout-only collectible of a user only moves by an accept that pays it out.
   */
  ghost predicate OwnerRule(w: World, c: Command, id: CollectibleId, v: V.Vault) {
    id in w.vault.items && id in v.items ==>
      && v.items[id].policy == w.vault.items[id].policy
      && (w.vault.items[id].owner.User? && v.items[id].owner != w.vault.items[id].owner ==>
            && !v.items[id].policy.IssuerControlled?
            && (v.items[id].policy.PayoutOnly? || id in w.vault.held ==>
                  && c.Accept?
                  && id in V.HeldBy(w.vault, c.review.task)
                  && c.review.submission in w.submissions
                  && v.items[id].owner == User(w.submissions[c.review.submission].worker)))
  }

  lemma AcceptObeys(w: World, c: Command, id: CollectibleId)
    requires WorldInv(w) && c.Accept? && Transact(w, c).Ok?
    ensures OwnerRule(w, c, id, Transact(w, c).value.0.vault)
  {
    hide B.BookInv, V.CatalogInv, FundsPlaced, HoldsPlaced, OneAccepted, B.PayReview, PayCreditTip, Supersede, SupersededEvents, ReviewEvents, FindPayout;
  }

  lemma SettlingHandsFreely(w: World, c: Command)
    requires (c.Refund? || c.RefundCollectible? || c.Expire? || c.ChangeState?) && Transact(w, c).Ok?
    ensures V.HandsFreely(w.vault, Transact(w, c).value.0.vault)
  {
    hide V.GiveBack, B.Return, B.Find, Openable, FindRefund, KeyOnTask;
    V.EscrowHandsFreely(w.vault, [], 0, 0, c.task);
  }

  lemma EscrowingHandsFreely(w: World, c: Command)
    requires (c.CreateTask? || c.FundCollectible?) && Transact(w, c).Ok?
    ensures V.HandsFreely(w.vault, Transact(w, c).value.0.vault)
  {
    if c.CreateTask? {
      var ids := match c.reward case Collectibles(ids) => ids case Bundle(_, ids) => ids case _ => [];
      V.EscrowHandsFreely(w.vault, ids, 0, c.creator, c.task);
    } else {
      V.EscrowHandsFreely(w.vault, [], c.collectible, c.funder, c.task);
    }
  }

  lemma CollectiblesHandFreely(w: World, c: Command)
    requires CollectibleTx(w, c).Ok?
    ensures V.HandsFreely(w.vault, CollectibleTx(w, c).value.0.vault)
  {
    var v := w.vault;
    match c
    case Gift(id, from, to, shared) => V.TransfersHandFreely(v, id, from, to, 0, shared);
    case AwardMember(id, org, to, member) => V.TransfersHandFreely(v, id, 0, to, org, member);
    case Donate(id, from, org, member) => V.TransfersHandFreely(v, id, from, 0, org, member);
    case HandOut(id, org, to, permitted, _) => V.TransfersHandFreely(v, id, 0, to, org, permitted);
    case MintCustom(id, kind, policy, owner, scope) => V.MintingHandsFreely(v, id, kind, policy, owner, scope, "");
    case AwardFromCatalog(id, slug, owner, scope) => V.MintingHandsFreely(v, id, V.Badge, V.PayoutOnly, owner, scope, slug);
    case Withdraw(id, _) => V.LifecycleHandsFreely(v, id);
    case Release(id, _) => V.LifecycleHandsFreely(v, id);
    case Delete(id) => V.LifecycleHandsFreely(v, id);
    case _ =>
  }

  /** Who a transfer command hands the collectible to. */
  function Receiver(c: Command): Party
    requires Transfers(c)
  {
    match c
    case Gift(_, _, to, _) => User(to)
    case AwardMember(_, _, to, _) => User(to)
    case Donate(_, _, org, _) => Organization(org)
    case HandOut(_, _, to, _, _) => User(to)
  }

  /** Who it must come from: the giving user, or the organization the collectible is scoped to. */
  predicate GivenBy(c: Command, i: V.Collectible)
    requires Transfers(c)
  {
    match c
    case Gift(_, from, _, _) => i.owner == User(from)
    case Donate(_, from, _, _) => i.owner == User(from)
    case AwardMember(_, org, _, _) => i.owner.Organization? && i.scope == Some(org)
    case HandOut(_, org, _, _, _) => i.owner.Organization? && i.scope == Some(org)
  }

  lemma TransferMoves(w: World, c: Command)
    requires Transfers(c) && CollectibleTx(w, c).Ok?
    ensures V.MovesOne(w.vault, CollectibleTx(w, c).value.0.vault, c.collectible, Receiver(c))
  {
    hide V.MovesOne;
    match c
    case Gift(id, from, to, shared) => V.TransfersMoveOne(w.vault, id, from, to, 0, shared);
    case AwardMember(id, org, to, member) => V.TransfersMoveOne(w.vault, id, 0, to, org, member);
    case Donate(id, from, org, member) => V.TransfersMoveOne(w.vault, id, from, 0, org, member);
    case HandOut(id, org, to, permitted, _) => V.TransfersMoveOne(w.vault, id, 0, to, org, permitted);
  }

  lemma TransferComesFromGiver(w: World, c: Command)
    requires Transfers(c) && CollectibleTx(w, c).Ok? && CollectibleTx(w, c).value.0.vault != w.vault
    ensures c.collectible in w.vault.items && w.vault.items[c.collectible].state.Minted? && GivenBy(c, w.vault.items[c.collectible])
    ensures !c.AwardMember? ==> V.AllowsTransfer(w.vault.items[c.collectible].policy)
  {
  }

  /**
   A transfer that goes through leaves the one collectible with its receiver,
   and came from its giver out of escrow unless the receiver had it already;
   everything else in the vault stays as it was.
   */
  lemma TransferMovesOneCollectible(w: World, c: Command)
    requires WorldInv(w) && Transfers(c) && Transact(w, c).Ok?
    ensures var v := Transact(w, c).value.0.vault;
      && V.MovesOne(w.vault, v, c.collectible, Receiver(c))
      && (v != w.vault ==> GivenBy(c, w.vault.items[c.collectible]) && c.collectible !in w.vault.held)
      && (v != w.vault && !c.AwardMember? ==> V.AllowsTransfer(w.vault.items[c.collectible].policy))
  {
    hide CollectibleTx, V.CatalogInv, B.BookInv;
    TransferMoves(w, c);
    if CollectibleTx(w, c).value.0.vault != w.vault { TransferComesFromGiver(w, c); }
  }

  predicate LeavesVault(c: Command) {
    || c.OpenAccount? || c.SignupGrant? || c.OrganizationGrant? || c.Grant? || c.Send? || c.Fund?
    || c.Reject? || c.RequestChanges? || c.Submit?
  }

  lemma CreditCommandsLeaveVault(w: World, c: Command)
    requires LeavesVault(c) && Transact(w, c).Ok?
    ensures Transact(w, c).value.0.vault == w.vault
  {
  }

  lemma OwnerChangesOnlyAsAllowed(w: World, c: Command, id: CollectibleId)
    requires WorldInv(w)
    ensures OwnerRule(w, c, id, Step(w, c).0.vault)
  {
    if Transact(w, c).Ok? {
      if c.Accept? { AcceptObeys(w, c, id); }
      else if LeavesVault(c) { CreditCommandsLeaveVault(w, c); }
      else if c.Refund? || c.RefundCollectible? || c.Expire? || c.ChangeState? { SettlingHandsFreely(w, c); }
      else if c.CreateTask? || c.FundCollectible? { EscrowingHandsFreely(w, c); }
      else { CollectiblesHandFreely(w, c); }
    }
  }

  lemma AcceptReleases(w: World, r: Review, id: CollectibleId)
    requires WorldInv(w) && AcceptTx(w, r).Ok? && id in V.HeldBy(w.vault, r.task) && !AcceptTx(w, r).value.1.replay
    ensures id !in AcceptTx(w, r).value.0.vault.held
  {
    hide WorldInv;
  }

  lemma HeldStep(w: World, c: Command, id: CollectibleId)
    requires WorldInv(w) && id in w.vault.held && id in Step(w, c).0.vault.held
    ensures id in w.vault.items && id in Step(w, c).0.vault.items && w.vault.items[id].owner.User?
    ensures Step(w, c).0.vault.items[id].owner == w.vault.items[id].owner
  {
    OwnerChangesOnlyAsAllowed(w, c, id);
    StepKeeps(w, c);
    assert V.EscrowInv(w.vault) && V.EscrowInv(Step(w, c).0.vault);
    hide WorldInv, Transact;
    if Step(w, c).0.vault.items[id].owner != w.vault.items[id].owner {
      AcceptHandsOver(w, c, id);
    }
  }

  lemma AcceptHandsOver(w: World, c: Command, id: CollectibleId)
    requires WorldInv(w) && c.Accept? && id in V.HeldBy(w.vault, c.review.task) && Step(w, c).0 != w
    ensures id !in Step(w, c).0.vault.held
  {
    hide WorldInv;
    if AcceptTx(w, c.review).Ok? && !AcceptTx(w, c.review).value.1.replay {
      AcceptReleases(w, c.review, id);
    } else {
      ReplaysAndRefusalsChangeNothing(w, c);
    }
  }

  /** As long as it stays in escrow a collectible keeps its owner, so what a refund hands back goes to who put it up. */
  lemma {:induction false} HeldKeepsOwner(w: World, commands: seq<Command>, i: nat, j: nat, id: CollectibleId)
    requires WorldInv(w) && i <= j <= |commands|
    requires forall k :: i <= k <= j ==> id in Run(w, commands[..k]).vault.held
    ensures id in Run(w, commands[..i]).vault.items && id in Run(w, commands[..j]).vault.items
    ensures Run(w, commands[..j]).vault.items[id].owner == Run(w, commands[..i]).vault.items[id].owner
    decreases j
  {
    hide Step, B.BookInv, V.CatalogInv, FundsPlaced, HoldsPlaced, OneAccepted;
    RunKeeps(w, commands[..i]);
    if i < j {
      HeldKeepsOwner(w, commands, i, j - 1, id);
      RunKeeps(w, commands[..j - 1]);
      assert commands[..j][..j - 1] == commands[..j - 1];
      HeldStep(Run(w, commands[..j - 1]), commands[j - 1], id);
    }
  }

  lemma IssuerControlledStep(w: World, c: Command, id: CollectibleId)
    requires WorldInv(w) && id in w.vault.items && id in Step(w, c).0.vault.items
    requires w.vault.items[id].owner.User? && w.vault.items[id].policy.IssuerControlled?
    ensures var i := Step(w, c).0.vault.items[id];
      i.policy.IssuerControlled? && i.owner == w.vault.items[id].owner
  {
    OwnerChangesOnlyAsAllowed(w, c, id);
  }

  /** Over any run in which it exists throughout, a user's issuer-controlled collectible stays theirs. */
  lemma {:induction false} IssuerControlledStaysPut(w: World, commands: seq<Command>, i: nat, j: nat, id: CollectibleId)
    requires WorldInv(w) && i <= j <= |commands|
    requires forall k :: i <= k <= j ==> id in Run(w, commands[..k]).vault.items
    requires var c := Run(w, commands[..i]).vault.items[id]; c.owner.User? && c.policy.IssuerControlled?
    ensures Run(w, commands[..j]).vault.items[id].owner == Run(w, commands[..i]).vault.items[id].owner
    ensures Run(w, commands[..j]).vault.items[id].policy.IssuerControlled?
    decreases j
  {
    hide Step, Transact, WorldInv, PaysOut;
    if i < j {
      IssuerControlledStaysPut(w, commands, i, j - 1, id);
      var v := Run(w, commands[..j - 1]);
      assert WorldInv(v) by { RunKeeps(w, commands[..j - 1]); }
      assert Run(w, commands[..j]) == Step(v, commands[j - 1]).0 by { assert commands[..j][..j - 1] == commands[..j - 1]; }
      IssuerControlledStep(v, commands[j - 1], id);
    }
  }

  predicate PaysOut(w: World, c: Command, id: CollectibleId) {
    c.Accept? && id in V.HeldBy(w.vault, c.review.task)
  }

  lemma PayoutOnlyStep(w: World, c: Command, id: CollectibleId)
    requires WorldInv(w) && id in w.vault.items && id in Step(w, c).0.vault.items
    requires w.vault.items[id].owner.User? && w.vault.items[id].policy.PayoutOnly?
    ensures var i := Step(w, c).0.vault.items[id];
      i.policy.PayoutOnly? && i.owner.User? && (i.owner == w.vault.items[id].owner || PaysOut(w, c, id))
  {
    OwnerChangesOnlyAsAllowed(w, c, id);
  }

  /** A payout-only collectible that changed hands between two points of a run was paid out by an accept between them. */
  lemma {:induction false} PayoutOnlyMovesByPayout(w: World, commands: seq<Command>, i: nat, j: nat, id: CollectibleId)
    requires WorldInv(w) && i <= j <= |commands|
    requires forall k :: i <= k <= j ==> id in Run(w, commands[..k]).vault.items
    requires var c := Run(w, commands[..i]).vault.items[id]; c.owner.User? && c.policy.PayoutOnly?
    ensures var c := Run(w, commands[..j]).vault.items[id]; c.owner.User? && c.policy.PayoutOnly?
    ensures Run(w, commands[..j]).vault.items[id].owner != Run(w, commands[..i]).vault.items[id].owner ==>
      exists k :: i <= k < j && PaysOut(Run(w, commands[..k]), commands[k], id)
    decreases j
  {
    hide Step, Transact, WorldInv, PaysOut;
    if i < j {
      PayoutOnlyMovesByPayout(w, commands, i, j - 1, id);
      var v := Run(w, commands[..j - 1]);
      assert WorldInv(v) by { RunKeeps(w, commands[..j - 1]); }
      assert Run(w, commands[..j]) == Step(v, commands[j - 1]).0 by { assert commands[..j][..j - 1] == commands[..j - 1]; }
      PayoutOnlyStep(v, commands[j - 1], id);
      assert v.vault.items[id].owner != Run(w, commands[..j]).vault.items[id].owner ==> PaysOut(Run(w, commands[..j - 1]), commands[j - 1], id);
    }
  }
}
