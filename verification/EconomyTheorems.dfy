/**
 What the economy promises over whole runs of commands: conservation, exactly
 once under retries, what a review moves, no stranding on refund, and who can
 come to own a collectible.
 */
module EconomyTheorems {
  import opened Prelude
  import opened Economy
  import opened EconomyInvariant
  import B = Book
  import V = Vault

  // ---- every reachable state ----

  /** Credits in circulation: what accounts can spend plus what tasks hold. */
  ghost function Circulating(w: World): int {
    B.Total(w.book.entries, B.Everything) + B.FundsTotal(w.book.funds)
  }

  lemma LedgerAgreesAfterAnyRun(commands: seq<Command>, account: Party, task: TaskId)
    ensures var w := Run(EMPTY, commands);
      && B.Balance(w.book, account) >= 0
      && B.Held(w.book, task) == -B.Total(w.book.entries, B.OnTask(task))
      && (task in w.book.funds ==> w.book.funds[task].amount > 0)
      && B.Total(w.book.entries, B.OfKind(B.TaskPayout, task)) <= -B.Total(w.book.entries, B.OfKind(B.TaskFund, task))
      && Circulating(w) == B.Total(w.book.entries, B.Minted)
  {
    EmptyKeeps();
    RunKeeps(EMPTY, commands);
    B.PayoutsWithinFunding(Run(EMPTY, commands).book, task);
  }

  /** A cancelled or expired task holds neither credits nor collectibles; a closed one no collectibles. */
  lemma NothingStrandedAfterAnyRun(commands: seq<Command>, task: TaskId)
    requires var w := Run(EMPTY, commands); task in w.tasks
    ensures var w := Run(EMPTY, commands);
      && (w.tasks[task].state.Cancelled? || w.tasks[task].state.Expired? ==> task !in w.book.funds && V.HeldBy(w.vault, task) == {})
      && (w.tasks[task].state.Closed? ==> V.HeldBy(w.vault, task) == {})
      && (task in w.book.funds ==> TakesCredits(w.tasks[task].reward))
      && (V.HeldBy(w.vault, task) != {} ==> TakesCollectibles(w.tasks[task].reward))
  {
    EmptyKeeps();
    RunKeeps(EMPTY, commands);
  }

  lemma EscrowAfterAnyRun(commands: seq<Command>, id: CollectibleId, slug: V.Slug)
    ensures var w := Run(EMPTY, commands);
      && (id in w.vault.held <==> id in w.vault.items && w.vault.items[id].state.Escrowed?)
      && (slug in w.vault.catalog && w.vault.catalog[slug].kind.Unique? ==> |V.Live(w.vault, slug)| <= 1)
      && (slug in w.vault.catalog && w.vault.catalog[slug].kind.Edition? ==>
            w.vault.catalog[slug].cap.Some? && |V.Instances(w.vault, slug)| <= w.vault.catalog[slug].cap.value)
      && (V.Instances(w.vault, slug) != {} ==> slug in w.vault.catalog)
      && (slug in w.vault.catalog && w.vault.catalog[slug].kind.Edition? ==>
            forall n <- V.Numbers(w.vault, slug) :: 1 <= n <= w.vault.catalog[slug].cap.value)
      && (slug in w.vault.catalog && w.vault.catalog[slug].kind.Edition? ==>
            forall c, d | c in V.Instances(w.vault, slug) && d in V.Instances(w.vault, slug) && c != d ::
              w.vault.items[c].edition != w.vault.items[d].edition)
  {
    EmptyKeeps();
    RunKeeps(EMPTY, commands);
    var v := Run(EMPTY, commands).vault;
    if slug in v.catalog { V.CatalogBounds(v, slug); }
    if V.Instances(v, slug) != {} {
      var c :| c in V.Instances(v, slug);
      assert V.InstanceOk(v, v.items[c]);
    }
  }

  /** A task has at most one accepted submission. */
  lemma OneAcceptedAfterAnyRun(commands: seq<Command>, s: SubmissionId, s': SubmissionId)
    requires var w := Run(EMPTY, commands);
      && s in w.submissions && s' in w.submissions && w.submissions[s].task == w.submissions[s'].task
      && w.submissions[s].state.Accepted? && w.submissions[s'].state.Accepted?
    ensures s == s'
  {
    EmptyKeeps();
    RunKeeps(EMPTY, commands);
  }

  // ---- effects of the main commands ----

  /** What a first accept does to credits: payout and tip to the worker, the rest to the funder, the tip from the reviewer. */
  lemma AcceptMovesCredits(w: World, r: Review, account: Party)
    requires WorldInv(w) && AcceptTx(w, r).Ok? && !AcceptTx(w, r).value.1.replay
    ensures var (w', reply) := AcceptTx(w, r).value;
      var s := w.submissions[r.submission];
      var paid := if reply.payout.CreditPayout? then reply.payout.amount else if reply.payout.BundlePayout? then reply.payout.credits else 0;
      && (paid > 0 <==> !r.selection.NoCredit? && r.task in w.book.funds)
      && (r.selection.Full? ==> paid == B.Held(w.book, r.task))
      && (r.selection.Partial? ==> paid == r.selection.amount)
      && B.Balance(w'.book, account) == B.Balance(w.book, account)
                                        + B.If(account == User(s.worker), paid + TipPaid(r))
                                        + B.If(paid > 0 && account == w.book.funds[r.task].funder, B.Held(w.book, r.task) - paid)
                                        - B.If(r.reviewer.ByUser? && account == User(r.reviewer.user), TipPaid(r))
      && B.Total(w'.book.entries, B.Minted) == B.Total(w.book.entries, B.Minted)
  {
    hide B.BookInv, V.VaultInv, FundsPlaced, HoldsPlaced, OneAccepted, PayCreditTip, PayCollectibleTip, ReviewEvents, SupersededEvents, FindPayout, Supersede, Competing, B.Balance, B.Total;
    var worker := User(w.submissions[r.submission].worker);
    B.PayReviewKeeps(w.book, r.task, worker, worker in w.accounts, r.selection, r.key, true);
    B.PayReviewEffect(w.book, r.task, worker, worker in w.accounts, r.selection, r.key, true);
    CreditTipKeeps(w, B.PayReview(w.book, r.task, worker, worker in w.accounts, r.selection, r.key, true).value.0, r, w.submissions[r.submission].worker);
  }

  /**
   A first accept leaves the fund row behind exactly when it selected no credit
   payout: then a bundle task closes still holding its credits.
   */
  lemma AcceptClearsFundUnlessNoCredit(w: World, r: Review)
    requires WorldInv(w) && AcceptTx(w, r).Ok? && !AcceptTx(w, r).value.1.replay
    ensures var w' := AcceptTx(w, r).value.0;
      && w'.book.funds == (if r.selection.NoCredit? then w.book.funds else w.book.funds - {r.task})
      && (r.task in w'.book.funds <==> r.task in w.book.funds && r.selection.NoCredit?)
      && (r.task in w'.book.funds ==> w.tasks[r.task].reward.BundleReward?)
  {
    hide B.BookInv, V.VaultInv, OneAccepted;
    var worker := User(w.submissions[r.submission].worker);
    B.PayReviewKeeps(w.book, r.task, worker, worker in w.accounts, r.selection, r.key, true);
    B.PayReviewEffect(w.book, r.task, worker, worker in w.accounts, r.selection, r.key, true);
    CreditTipKeeps(w, B.PayReview(w.book, r.task, worker, worker in w.accounts, r.selection, r.key, true).value.0, r, w.submissions[r.submission].worker);
    if r.task in w.book.funds && r.selection.NoCredit? {
      assert V.HeldBy(w.vault, r.task) != {};
      var c :| c in V.HeldBy(w.vault, r.task);
      assert c in w.vault.held;
    }
  }

  /** The accept closes the task, supersedes exactly the competing submissions with one event each, and delivers every held collectible. */
  lemma AcceptSettlesTask(w: World, r: Review)
    requires WorldInv(w) && AcceptTx(w, r).Ok? && !AcceptTx(w, r).value.1.replay
    ensures var w' := AcceptTx(w, r).value.0;
      var worker := w.submissions[r.submission].worker;
      && w.tasks[r.task].state.Open? && w'.tasks == w.tasks[r.task := w.tasks[r.task].(state := Closed)]
      && w'.submissions.Keys == w.submissions.Keys
      && w'.submissions[r.submission] == w.submissions[r.submission].(state := Accepted, acceptKey := Some(r.key))
      && (forall s <- w.submissions :: s != r.submission ==>
            w'.submissions[s] == if w.submissions[s].task == r.task && w.submissions[s].state.Submitted?
                                 then w.submissions[s].(state := Superseded) else w.submissions[s])
      && (forall s <- w'.submissions :: w'.submissions[s].task == r.task ==> !w'.submissions[s].state.Submitted?)
      && V.HeldBy(w'.vault, r.task) == {}
      && (forall c <- V.HeldBy(w.vault, r.task) :: w'.vault.items[c] == w.vault.items[c].(state := V.Minted, owner := User(worker)))
  {
    hide B.BookInv, ReviewEvents, SupersededEvents, CombinePayouts, CombineTips, FindPayout;
  }

  /** One superseded event for each competing submission, addressed to its submitter, and for no other. */
  lemma AcceptTellsTheSuperseded(w: World, r: Review, s: SubmissionId)
    requires WorldInv(w) && AcceptTx(w, r).Ok? && !AcceptTx(w, r).value.1.replay && s in w.submissions
    ensures var w' := AcceptTx(w, r).value.0;
      var e := Event(SubmissionSuperseded, OnSubmission(r.task, s), {w.submissions[s].worker});
      w'.events[e] == w.events[e] + if s in Competing(w, r) then 1 else 0
  {
    var e := Event(SubmissionSuperseded, OnSubmission(r.task, s), {w.submissions[s].worker});
    assert e in SupersededEvents(w, r) <==> s in Competing(w, r);
  }

  /** A reject pays out of the fund and leaves the rest allocated; it closes nothing and touches no other submission. */
  lemma RejectMovesCredits(w: World, r: Review, account: Party)
    requires WorldInv(w) && RejectTx(w, r).Ok? && !RejectTx(w, r).value.1.replay
    ensures var (w', reply) := RejectTx(w, r).value;
      var s := w.submissions[r.submission];
      var paid := if reply.payout.CreditPayout? then reply.payout.amount else 0;
      && B.Held(w'.book, r.task) == B.Held(w.book, r.task) - paid
      && w'.book.funds - {r.task} == w.book.funds - {r.task}
      && (r.task in w'.book.funds ==> r.task in w.book.funds && w'.book.funds[r.task].funder == w.book.funds[r.task].funder)
      && B.Balance(w'.book, account) == B.Balance(w.book, account)
                                        + B.If(account == User(s.worker), paid + TipPaid(r))
                                        - B.If(r.reviewer.ByUser? && account == User(r.reviewer.user), TipPaid(r))
      && B.Total(w'.book.entries, B.Minted) == B.Total(w.book.entries, B.Minted)
      && w'.tasks == w.tasks && w'.vault == w.vault
      && w'.submissions == w.submissions[r.submission := s.(state := Rejected, rejectKey := Some(r.key))]
  {
    hide V.VaultInv, B.BookInv;
    var worker := User(w.submissions[r.submission].worker);
    B.PayReviewKeeps(w.book, r.task, worker, worker in w.accounts, r.selection, r.key, false);
    B.PayReviewEffect(w.book, r.task, worker, worker in w.accounts, r.selection, r.key, false);
    CreditTipKeeps(w, B.PayReview(w.book, r.task, worker, worker in w.accounts, r.selection, r.key, false).value.0, r, w.submissions[r.submission].worker);
  }

  /** A refund undoes funding: the funder gets back all the task holds, held collectibles return to their owners unescrowed. */
  lemma RefundReturnsEverything(w: World, c: Command, account: Party)
    requires WorldInv(w) && c.Refund? && Transact(w, c).Ok? && !Transact(w, c).value.1.replay
    ensures var w' := Transact(w, c).value.0;
      && c.task in w.book.funds
      && B.Balance(w'.book, account) == B.Balance(w.book, account) + B.If(account == w.book.funds[c.task].funder, B.Held(w.book, c.task))
      && w'.book.funds == w.book.funds - {c.task}
      && w'.tasks == w.tasks[c.task := w.tasks[c.task].(state := Cancelled)]
      && V.HeldBy(w'.vault, c.task) == {}
      && w'.vault.items.Keys == w.vault.items.Keys
      && (forall i <- w.vault.items ::
            w'.vault.items[i] == if i in V.HeldBy(w.vault, c.task) then w.vault.items[i].(state := V.Minted) else w.vault.items[i])
  {
    B.ReturnEffect(w.book, c.task, Some(c.key));
  }

  /** Cancelling and expiring return everything just as a refund does. */
  lemma SettlingReturnsEverything(w: World, c: Command, account: Party)
    requires WorldInv(w) && Transact(w, c).Ok?
    requires c.Expire? || (c.ChangeState? && TransitionTarget(c.seen, c.transition) == Ok(Cancelled))
    ensures var w' := Transact(w, c).value.0;
      && c.task in w.tasks
      && B.Balance(w'.book, account)
         == B.Balance(w.book, account) + B.If(c.task in w.book.funds && account == w.book.funds[c.task].funder, B.Held(w.book, c.task))
      && w'.book.funds == w.book.funds - {c.task}
      && w'.tasks == w.tasks[c.task := w.tasks[c.task].(state := if c.Expire? then Expired else Cancelled)]
      && V.HeldBy(w'.vault, c.task) == {}
      && w'.vault.items.Keys == w.vault.items.Keys
      && (forall i <- w.vault.items ::
            w'.vault.items[i] == if i in V.HeldBy(w.vault, c.task) then w.vault.items[i].(state := V.Minted) else w.vault.items[i])
  {
    hide B.BookInv, V.VaultInv;
    B.ReturnEffect(w.book, c.task, if c.Expire? then Some("expire:" + Text(c.task)) else None);
  }

  /** Funding takes the credits off the payer, puts exactly them on the task, and declares them on a draft that had none. */
  lemma FundMovesExactly(w: World, c: Command, account: Party)
    requires WorldInv(w) && c.Fund? && Transact(w, c).Ok? && !Transact(w, c).value.1.replay
    ensures var w' := Transact(w, c).value.0;
      && c.task in w.tasks && w.tasks[c.task].state.Draft? && c.task !in w.book.funds
      && B.Balance(w.book, c.payer) >= c.amount
      && B.Balance(w'.book, account) == B.Balance(w.book, account) - B.If(account == c.payer, c.amount)
      && B.Held(w'.book, c.task) == c.amount && w'.book.funds - {c.task} == w.book.funds
      && w'.tasks.Keys == w.tasks.Keys && (forall t <- w.tasks :: t != c.task ==> w'.tasks[t] == w.tasks[t])
      && w'.tasks[c.task].state.Draft? && w'.tasks[c.task].declared == c.amount && TakesCredits(w'.tasks[c.task].reward)
      && (TakesCollectibles(w'.tasks[c.task].reward) <==> TakesCollectibles(w.tasks[c.task].reward))
  {
    hide B.BookInv, V.VaultInv;
    B.AllocateEffect(w.book, c.task, c.payer, c.amount, c.key);
    assert w.book.funds[c.task := B.Fund(c.payer, c.amount)] - {c.task} == w.book.funds;
  }

  lemma FunderIsPayer(w: World, f: Command)
    requires f.Fund? && Transact(w, f).Ok? && !Transact(w, f).value.1.replay
    ensures f.task in Transact(w, f).value.0.book.funds && Transact(w, f).value.0.book.funds[f.task] == B.Fund(f.payer, f.amount)
  {
  }

  /** Funding then refunding in one go restores every balance and every other fund row. */
  lemma RefundUndoesFunding(w: World, f: Command, c: Command, account: Party)
    requires WorldInv(w) && f.Fund? && Transact(w, f).Ok? && Transact(w, f).value.1.Funded? && !Transact(w, f).value.1.replay
    requires c.Refund? && c.task == f.task
    requires var w1 := Transact(w, f).value.0; Transact(w1, c).Ok? && !Transact(w1, c).value.1.replay
    ensures var w1 := Transact(w, f).value.0;
      var w2 := Transact(w1, c).value.0;
      && B.Balance(w1.book, account) == B.Balance(w.book, account) - B.If(account == f.payer, f.amount)
      && B.Balance(w2.book, account) == B.Balance(w.book, account)
      && w2.book.funds == w.book.funds
  {
    hide FundTx, RefundTx, WorldInv, B.Balance;
    FundMovesExactly(w, f, account);
    var w1 := Transact(w, f).value.0;
    StepKeeps(w, f);
    RefundReturnsEverything(w1, c, account);
    assert B.Held(w1.book, f.task) == f.amount;
    FunderIsPayer(w, f);
  }

  lemma SendMovesExactly(w: World, c: Command, account: Party)
    requires WorldInv(w) && c.Send? && SendTx(w, c).Ok? && !SendTx(w, c).value.1.replay
    ensures var w' := SendTx(w, c).value.0;
      && B.Balance(w.book, c.source) >= c.amount
      && B.Balance(w'.book, account) == B.Balance(w.book, account) - B.If(account == c.source, c.amount) + B.If(account == c.dest, c.amount)
      && w'.book.funds == w.book.funds
  {
    B.MoveEffect(w.book, B.PeerTransfer, None, c.source, c.dest, c.amount, c.key + ":send-debit", c.key + ":send-credit");
  }

  // ---- conservation, step by step ----

  function MintedBy(w: World, c: Command): int {
    var reply := Step(w, c).1;
    if (c.SignupGrant? || c.Grant?) && reply.Moved? && !reply.replay then reply.amount
    else if c.OrganizationGrant? && reply.Done? && c.verified then SIGNUP_GRANT
    else 0
  }

  lemma ReviewGrows(w: World, r: Review, worker: UserId, close: bool)
    ensures var pay := B.PayReview(w.book, r.task, User(worker), User(worker) in w.accounts, r.selection, r.key, close);
      pay.Ok? && PayCreditTip(w, pay.value.0, r, worker).Ok? ==> B.Grows(w.book, PayCreditTip(w, pay.value.0, r, worker).value)
  {
    var pay := B.PayReview(w.book, r.task, User(worker), User(worker) in w.accounts, r.selection, r.key, close);
    if pay.Ok? && PayCreditTip(w, pay.value.0, r, worker).Ok? {
      B.PayReviewGrows(w.book, r.task, User(worker), User(worker) in w.accounts, r.selection, r.key, close);
      if r.tip.Some? {
        B.MovesGrow(pay.value.0, B.TaskTip, Some(r.task), User(r.reviewer.user), User(worker), r.tip.value, r.key + ":tip-debit", r.key + ":tip-credit");
      }
      B.GrowsTransitive(w.book, pay.value.0, PayCreditTip(w, pay.value.0, r, worker).value);
    }
  }

  lemma AcceptGrows(w: World, r: Review)
    requires AcceptTx(w, r).Ok?
    ensures B.Grows(w.book, AcceptTx(w, r).value.0.book)
  {
    if !AcceptTx(w, r).value.1.replay {
      ReviewGrows(w, r, w.submissions[r.submission].worker, true);
    }
  }

  lemma RejectGrows(w: World, r: Review)
    requires RejectTx(w, r).Ok?
    ensures B.Grows(w.book, RejectTx(w, r).value.0.book)
  {
    if !RejectTx(w, r).value.1.replay {
      ReviewGrows(w, r, w.submissions[r.submission].worker, false);
    }
  }

  lemma SendGrows(w: World, c: Command)
    requires c.Send? && SendTx(w, c).Ok?
    ensures B.Grows(w.book, SendTx(w, c).value.0.book)
  {
    if !SendTx(w, c).value.1.replay {
      B.MovesGrow(w.book, B.PeerTransfer, None, c.source, c.dest, c.amount, c.key + ":send-debit", c.key + ":send-credit");
    }
  }

  lemma SettlingGrows(w: World, c: Command)
    requires (c.Refund? || c.Expire? || c.ChangeState?) && Transact(w, c).Ok?
    ensures B.Grows(w.book, Transact(w, c).value.0.book)
  {
  }

  lemma GrantingGrows(w: World, c: Command)
    requires (c.Fund? || c.Grant? || c.SignupGrant? || c.OrganizationGrant?) && Transact(w, c).Ok?
    ensures B.Grows(w.book, Transact(w, c).value.0.book)
  {
  }

  predicate MovesCredits(c: Command) {
    || c.Accept? || c.Reject? || c.Send? || c.Fund? || c.Grant? || c.SignupGrant? || c.OrganizationGrant?
    || c.Refund? || c.Expire? || c.ChangeState?
  }

  lemma OthersLeaveBook(w: World, c: Command)
    requires !MovesCredits(c) && Transact(w, c).Ok?
    ensures Transact(w, c).value.0.book == w.book
  {
  }

  /** The ledger is append-only. */
  lemma StepGrows(w: World, c: Command)
    ensures B.Grows(w.book, Step(w, c).0.book)
  {
    if Transact(w, c).Ok? {
      if c.Accept? { AcceptGrows(w, c.review); }
      else if c.Reject? { RejectGrows(w, c.review); }
      else if c.Send? { SendGrows(w, c); }
      else if c.Refund? || c.Expire? || c.ChangeState? { SettlingGrows(w, c); }
      else if MovesCredits(c) { GrantingGrows(w, c); }
      else { OthersLeaveBook(w, c); }
    }
  }

  lemma GrantsMint(w: World, c: Command)
    requires WorldInv(w) && (c.SignupGrant? || c.OrganizationGrant? || c.Grant?) && Transact(w, c).Ok?
    ensures B.Total(Transact(w, c).value.0.book.entries, B.Minted) == B.Total(w.book.entries, B.Minted) + MintedBy(w, c)
  {
    hide B.BookInv, V.VaultInv;
    match c
    case SignupGrant(user) =>
      if B.Find(w.book.entries, User(user), SignupKey(user)).None? { B.MintEffect(w.book, B.SignupGrant, User(user), SIGNUP_GRANT, SignupKey(user)); }
    case OrganizationGrant(org, verified) =>
      if verified { B.MintEffect(w.book, B.SignupGrant, Organization(org), SIGNUP_GRANT, "org_grant:" + Text(org)); }
    case Grant(target, amount, key, _) =>
      if B.Find(w.book.entries, target, key).None? { B.MintEffect(w.book, B.ManualAdjustment, target, amount, key); }
  }

  /** What a grant mints reaches its account and no other, and leaves funds alone. */
  lemma GrantsReachTheirAccount(w: World, c: Command, account: Party)
    requires WorldInv(w) && (c.SignupGrant? || c.OrganizationGrant? || c.Grant?) && Transact(w, c).Ok?
    ensures var w' := Transact(w, c).value.0;
      var target := match c case SignupGrant(user) => User(user) case OrganizationGrant(org, _) => Organization(org) case Grant(target, _, _, _) => target;
      && B.Balance(w'.book, account) == B.Balance(w.book, account) + B.If(account == target, MintedBy(w, c))
      && w'.book.funds == w.book.funds && target in w'.accounts
  {
    hide B.BookInv, V.VaultInv;
    match c
    case SignupGrant(user) =>
      if B.Find(w.book.entries, User(user), SignupKey(user)).None? { B.MintEffect(w.book, B.SignupGrant, User(user), SIGNUP_GRANT, SignupKey(user)); }
    case OrganizationGrant(org, verified) =>
      if verified { B.MintEffect(w.book, B.SignupGrant, Organization(org), SIGNUP_GRANT, "org_grant:" + Text(org)); }
    case Grant(target, amount, key, _) =>
      if B.Find(w.book.entries, target, key).None? { B.MintEffect(w.book, B.ManualAdjustment, target, amount, key); }
  }

  lemma SpendingMintsNothing(w: World, c: Command)
    requires WorldInv(w) && (c.Send? || c.Fund? || c.Refund? || c.Expire? || c.ChangeState?) && Transact(w, c).Ok?
    ensures B.Total(Transact(w, c).value.0.book.entries, B.Minted) == B.Total(w.book.entries, B.Minted)
  {
    hide B.BookInv, V.VaultInv;
    match c
    case Send(_, _, _, _, _, _, _, _) =>
      if B.Find(w.book.entries, c.source, c.key + ":send-debit").None? {
        B.MoveEffect(w.book, B.PeerTransfer, None, c.source, c.dest, c.amount, c.key + ":send-debit", c.key + ":send-credit");
      }
    case Fund(payer, task, amount, key, _, _) =>
      if FindFund(w, payer, task, key).None? { B.AllocateEffect(w.book, task, payer, amount, key); }
    case Refund(_, task, key, _, _) => if task in w.book.funds { B.ReturnEffect(w.book, task, Some(key)); }
    case Expire(task, _, _) => B.ReturnEffect(w.book, task, Some("expire:" + Text(task)));
    case ChangeState(task, _, _, _) => if B.Return(w.book, task, None).Ok? { B.ReturnEffect(w.book, task, None); }
  }

  lemma StepMinted(w: World, c: Command)
    requires WorldInv(w)
    ensures B.Total(Step(w, c).0.book.entries, B.Minted) == B.Total(w.book.entries, B.Minted) + MintedBy(w, c)
  {
    if Transact(w, c).Ok? {
      if c.SignupGrant? || c.OrganizationGrant? || c.Grant? {
        GrantsMint(w, c);
      } else if c.Send? || c.Fund? || c.Refund? || c.Expire? || c.ChangeState? {
        SpendingMintsNothing(w, c);
      } else if c.Accept? {
        if !Transact(w, c).value.1.replay { AcceptMovesCredits(w, c.review, User(0)); }
      } else if c.Reject? {
        if !Transact(w, c).value.1.replay { RejectMovesCredits(w, c.review, User(0)); }
      }
    }
  }

  /** Only grants change how many credits circulate, and by exactly what they report. */
  lemma StepConserves(w: World, c: Command)
    requires WorldInv(w)
    ensures Circulating(Step(w, c).0) == Circulating(w) + MintedBy(w, c)
  {
    StepMinted(w, c);
    StepKeeps(w, c);
  }

  // ---- exactly once ----

  /** The (account, key) slot of the ledger a keyed command claims. */
  function Slot(c: Command): Option<(Party, Key)> {
    match c
    case SignupGrant(user) => Some((User(user), SignupKey(user)))
    case Grant(target, _, key, _) => Some((target, key))
    case Fund(payer, _, _, key, _, _) => Some((payer, key))
    case Send(source, _, _, key, _, _, _, _) => Some((source, key + ":send-debit"))
    case _ => None
  }

  predicate FirstTime(reply: Reply) {
    match reply
    case Moved(_, replay) => !replay
    case Funded(_, _, _, replay) => !replay
    case Refunded(_, _, replay) => !replay
    case Reviewed(_, _, _, _, replay) => !replay
    case _ => false
  }

  predicate Replayed(reply: Reply) {
    match reply
    case Moved(_, replay) => replay
    case Funded(_, _, _, replay) => replay
    case Refunded(_, _, replay) => replay
    case Reviewed(_, _, _, _, replay) => replay
    case _ => false
  }

  /** A replay or a refusal leaves every table as it was. */
  lemma ReplaysAndRefusalsChangeNothing(w: World, c: Command)
    requires Replayed(Step(w, c).1) || Step(w, c).1.Refused?
    ensures Step(w, c).0 == w
  {
  }

  predicate Taken(w: World, slot: (Party, Key)) {
    B.Find(w.book.entries, slot.0, slot.1).Some?
  }

  lemma FirstTimeTakesSlot(w: World, c: Command)
    requires WorldInv(w) && Slot(c).Some? && FirstTime(Step(w, c).1)
    ensures !Taken(w, Slot(c).value) && Taken(Step(w, c).0, Slot(c).value)
  {
    var w' := Step(w, c).0;
    var n := |w.book.entries|;
    assert w'.book.entries[n] in w'.book.entries;
    assert w'.book.entries[n].account == Slot(c).value.0 && w'.book.entries[n].key == Some(Slot(c).value.1);
  }

  lemma {:induction false} RunGrows(w: World, commands: seq<Command>, i: nat, j: nat)
    requires i <= j <= |commands|
    ensures B.Grows(Run(w, commands[..i]).book, Run(w, commands[..j]).book)
    decreases j
  {
    hide Step;
    if i < j {
      RunGrows(w, commands, i, j - 1);
      assert commands[..j][..j - 1] == commands[..j - 1];
      StepGrows(Run(w, commands[..j - 1]), commands[j - 1]);
      B.GrowsTransitive(Run(w, commands[..i]).book, Run(w, commands[..j - 1]).book, Run(w, commands[..j]).book);
    }
  }

  /** However retries interleave with other commands, a slot moves credits at most once in a run. */
  lemma MovesAtMostOnce(w: World, commands: seq<Command>, i: nat, j: nat)
    requires WorldInv(w) && i < j < |commands|
    requires Slot(commands[i]).Some? && Slot(commands[j]) == Slot(commands[i])
    requires FirstTime(ReplyAt(w, commands, i))
    ensures !FirstTime(ReplyAt(w, commands, j))
  {
    var slot := Slot(commands[i]).value;
    RunKeeps(w, commands[..i]);
    FirstTimeTakesSlot(Run(w, commands[..i]), commands[i]);
    assert commands[..i + 1][..i] == commands[..i];
    RunGrows(w, commands, i + 1, j);
    var early := Run(w, commands[..i + 1]).book.entries;
    var found := B.Find(early, slot.0, slot.1).value;
    assert found in Run(w, commands[..j]).book.entries;
    RunKeeps(w, commands[..j]);
    if FirstTime(ReplyAt(w, commands, j)) {
      FirstTimeTakesSlot(Run(w, commands[..j]), commands[j]);
      assert false;
    }
  }

  // ---- what a retry is answered ----

  lemma FindInLonger(a: seq<B.Entry>, b: seq<B.Entry>, account: Party, key: Key)
    requires a <= b && B.KeysUnique(b) && B.Find(a, account, key).Some?
    ensures B.Find(b, account, key) == B.Find(a, account, key)
  {
    var e := B.Find(a, account, key).value;
    var i :| 0 <= i < |a| && a[i] == e;
    assert b[i] == e;
    assert B.Find(b, account, key).Some?;
    var f := B.Find(b, account, key).value;
    var j :| 0 <= j < |b| && b[j] == f;
    assert i == j;
  }

  /** The entry a keyed command records in its slot. */
  function Recorded(c: Command): B.Entry
    requires Slot(c).Some?
  {
    var (account, key) := Slot(c).value;
    match c
    case SignupGrant(_) => B.Entry(account, B.SignupGrant, SIGNUP_GRANT, None, Some(key))
    case Grant(_, amount, _, _) => B.Entry(account, B.ManualAdjustment, amount, None, Some(key))
    case Fund(_, task, amount, _, _, _) => B.Entry(account, B.TaskFund, -(amount as int), Some(task), Some(key))
    case Send(_, _, amount, _, _, _, _, _) => B.Entry(account, B.PeerTransfer, -(amount as int), None, Some(key))
  }

  lemma FirstTimeRecords(w: World, c: Command)
    requires Slot(c).Some? && FirstTime(Step(w, c).1)
    ensures w.book.entries + [Recorded(c)] <= Step(w, c).0.book.entries
    ensures Slot(c).value.0 in w.accounts && Step(w, c).0.accounts == w.accounts
  {
  }

  /** With its entry in the ledger, an identical command is answered as the first time, marked as a replay. */
  lemma RecordedReplays(w: World, c: Command, later: World)
    requires Slot(c).Some? && FirstTime(Step(w, c).1) && Slot(c).value.0 in later.accounts
    requires c.Send? ==> c.dest in later.accounts
    requires B.Find(later.book.entries, Slot(c).value.0, Slot(c).value.1) == Some(Recorded(c))
    ensures Step(later, c) == (later, Step(w, c).1.(replay := true))
  {
  }

  lemma AccountsStay(w: World, c: Command)
    ensures w.accounts <= Step(w, c).0.accounts
  {
  }

  lemma {:induction false} AccountsStayInRun(w: World, commands: seq<Command>, i: nat, j: nat)
    requires i <= j <= |commands|
    ensures Run(w, commands[..i]).accounts <= Run(w, commands[..j]).accounts
    decreases j
  {
    hide Step;
    if i < j {
      AccountsStayInRun(w, commands, i, j - 1);
      assert commands[..j][..j - 1] == commands[..j - 1];
      AccountsStay(Run(w, commands[..j - 1]), commands[j - 1]);
    }
  }

  lemma SendNeedsBoth(w: World, c: Command)
    requires c.Send? && FirstTime(Step(w, c).1)
    ensures c.dest in w.accounts
  {
  }

  lemma RecordedIsFound(before: seq<B.Entry>, later: seq<B.Entry>, c: Command)
    requires Slot(c).Some? && B.KeysUnique(later) && before + [Recorded(c)] <= later
    ensures B.Find(later, Slot(c).value.0, Slot(c).value.1) == Some(Recorded(c))
  {
    FindInLonger(before + [Recorded(c)], later, Slot(c).value.0, Slot(c).value.1);
  }

  lemma RetryAgainstLater(w: World, c: Command, later: World)
    requires Slot(c).Some? && FirstTime(Step(w, c).1)
    requires B.Grows(Step(w, c).0.book, later.book) && w.accounts <= later.accounts && B.KeysUnique(later.book.entries)
    ensures Step(later, c) == (later, Step(w, c).1.(replay := true))
  {
    hide Step, Recorded, B.KeysUnique;
    FirstTimeRecords(w, c);
    RecordedIsFound(w.book.entries, later.book.entries, c);
    if c.Send? { SendNeedsBoth(w, c); }
    RecordedReplays(w, c, later);
  }

  /**
   However late it comes and whatever ran in between, repeating a signup grant,
   grant, funding or send that moved credits is never refused: it is answered with the first reply,
   marked as a replay, and changes nothing.
   */
  lemma IdenticalRetryIsReplayed(w: World, commands: seq<Command>, i: nat, j: nat)
    requires WorldInv(w) && i < j < |commands|
    requires Slot(commands[i]).Some? && commands[j] == commands[i] && FirstTime(ReplyAt(w, commands, i))
    ensures ReplyAt(w, commands, j) == ReplyAt(w, commands, i).(replay := true)
    ensures Run(w, commands[..j + 1]) == Run(w, commands[..j])
  {
    hide Step, Slot, FirstTime, B.NoOverdraft, B.FundsAgree, B.Conserved, B.SignsRight, B.KeysUnique, V.VaultInv, FundsPlaced, HoldsPlaced, OneAccepted;
    assert commands[..i + 1][..i] == commands[..i];
    assert commands[..j + 1][..j] == commands[..j];
    RunGrows(w, commands, i + 1, j);
    AccountsStayInRun(w, commands, i, j);
    RunKeeps(w, commands[..j]);
    RetryAgainstLater(Run(w, commands[..i]), commands[i], Run(w, commands[..j]));
  }

  /** A submission that has left `submitted` never changes again. */
  lemma ReviewedStays(w: World, c: Command, s: SubmissionId)
    requires s in w.submissions && !w.submissions[s].state.Submitted?
    ensures s in Step(w, c).0.submissions && Step(w, c).0.submissions[s] == w.submissions[s]
  {
  }

  lemma {:induction false} ReviewedStaysInRun(w: World, commands: seq<Command>, i: nat, j: nat, s: SubmissionId)
    requires i <= j <= |commands|
    requires var v := Run(w, commands[..i]); s in v.submissions && !v.submissions[s].state.Submitted?
    ensures var v := Run(w, commands[..i]); var v' := Run(w, commands[..j]); s in v'.submissions && v'.submissions[s] == v.submissions[s]
    decreases j
  {
    hide Step;
    if i < j {
      ReviewedStaysInRun(w, commands, i, j - 1, s);
      assert commands[..j][..j - 1] == commands[..j - 1];
      ReviewedStays(Run(w, commands[..j - 1]), commands[j - 1], s);
    }
  }

  predicate IsReview(c: Command) {
    c.Accept? || c.Reject? || c.RequestChanges?
  }

  lemma FirstReviewDecides(w: World, c: Command)
    requires IsReview(c) && FirstTime(Step(w, c).1)
    ensures var s := c.review.submission; var w' := Step(w, c).0;
      && s in w.submissions && w.submissions[s].state.Submitted? && w.submissions[s].task == c.review.task
      && s in w'.submissions && !w'.submissions[s].state.Submitted? && w'.submissions[s].task == c.review.task
      && (c.Accept? ==> w'.submissions[s].state.Accepted? && !HasAccepted(w, c.review.task))
  {
  }

  /** A submission is accepted, rejected or sent back at most once in a run, whichever of the three comes first. */
  lemma ReviewedAtMostOnce(w: World, commands: seq<Command>, i: nat, j: nat)
    requires i < j < |commands| && IsReview(commands[i]) && IsReview(commands[j])
    requires commands[i].review.submission == commands[j].review.submission
    requires FirstTime(ReplyAt(w, commands, i))
    ensures !FirstTime(ReplyAt(w, commands, j))
  {
    assert commands[..i + 1][..i] == commands[..i];
    FirstReviewDecides(Run(w, commands[..i]), commands[i]);
    ReviewedStaysInRun(w, commands, i + 1, j, commands[i].review.submission);
    if FirstTime(ReplyAt(w, commands, j)) {
      FirstReviewDecides(Run(w, commands[..j]), commands[j]);
    }
  }

  /** The submission carries the outcome and the key of this review. */
  predicate Marked(w: World, c: Command)
    requires IsReview(c)
  {
    var (s, key) := (c.review.submission, Some(c.review.key));
    && s in w.submissions && w.submissions[s].task == c.review.task
    && match c
       case Accept(_) => w.submissions[s].state.Accepted? && w.submissions[s].acceptKey == key
       case Reject(_) => w.submissions[s].state.Rejected? && w.submissions[s].rejectKey == key
       case RequestChanges(_) => w.submissions[s].state.ChangesRequested? && w.submissions[s].changesKey == key
  }

  lemma FirstReviewMarks(w: World, c: Command)
    requires IsReview(c) && FirstTime(Step(w, c).1)
    ensures Marked(Step(w, c).0, c)
  {
  }

  /** What is asked of a review before its key: an allowed reviewer and, unless it accepts, an open task. */
  predicate Reviewable(w: World, c: Command)
    requires IsReview(c)
  {
    LockForReview(w, c.review.task, c.review.reviewer).Ok? && (c.Accept? || w.tasks[c.review.task].state.Open?)
  }

  lemma MarkedReplaysIffReviewable(w: World, c: Command)
    requires IsReview(c) && Marked(w, c)
    ensures Step(w, c).0 == w
    ensures if Reviewable(w, c) then Replayed(Step(w, c).1) else Step(w, c).1.Refused?
  {
  }

  /** The same decision on the same submission under the same key, whatever else differs. */
  predicate SameReview(c: Command, d: Command) {
    && ((c.Accept? && d.Accept?) || (c.Reject? && d.Reject?) || (c.RequestChanges? && d.RequestChanges?))
    && c.review.task == d.review.task && c.review.submission == d.review.submission && c.review.key == d.review.key
  }

  /**
   Repeating a review, however late, changes nothing; it is replayed if its
   reviewer is still allowed and, for a reject or a request for changes, the task
   is still open, and refused otherwise.
   */
  lemma RetriedReviewReplaysIffReviewable(w: World, commands: seq<Command>, i: nat, j: nat)
    requires i < j < |commands| && SameReview(commands[i], commands[j]) && FirstTime(ReplyAt(w, commands, i))
    ensures Run(w, commands[..j + 1]) == Run(w, commands[..j])
    ensures if Reviewable(Run(w, commands[..j]), commands[j]) then Replayed(ReplyAt(w, commands, j)) else ReplyAt(w, commands, j).Refused?
  {
    hide Step, FirstTime, Replayed, Reviewable;
    assert commands[..i + 1][..i] == commands[..i] && commands[..j + 1][..j] == commands[..j];
    FirstReviewMarks(Run(w, commands[..i]), commands[i]);
    ReviewedStaysInRun(w, commands, i + 1, j, commands[i].review.submission);
    MarkedReplaysIffReviewable(Run(w, commands[..j]), commands[j]);
  }

  /** A task has at most one acceptance in a run. */
  lemma AcceptedAtMostOncePerTask(w: World, commands: seq<Command>, i: nat, j: nat)
    requires i < j < |commands| && commands[i].Accept? && commands[j].Accept? && commands[i].review.task == commands[j].review.task
    requires FirstTime(ReplyAt(w, commands, i))
    ensures !FirstTime(ReplyAt(w, commands, j))
  {
    var s := commands[i].review.submission;
    assert commands[..i + 1][..i] == commands[..i];
    FirstReviewDecides(Run(w, commands[..i]), commands[i]);
    ReviewedStaysInRun(w, commands, i + 1, j, s);
    if FirstTime(ReplyAt(w, commands, j)) {
      FirstReviewDecides(Run(w, commands[..j]), commands[j]);
    }
  }
}
