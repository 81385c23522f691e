/**
 The invariant of the economy, and that every command, hence every run, keeps it.
 */
module EconomyInvariant {
  import opened Prelude
  import opened Economy
  import B = Book
  import V = Vault

  predicate TakesCredits(r: Reward) {
    r.CreditReward? || r.BundleReward?
  }

  predicate TakesCollectibles(r: Reward) {
    r.CollectibleReward? || r.BundleReward?
  }

  /** A fund row sits on a task that declares credits, never on a cancelled or expired one, and within what it declares. */
  ghost predicate FundsPlaced(w: World) {
    forall t <- w.book.funds ::
      && t in w.tasks
      && TakesCredits(w.tasks[t].reward)
      && !w.tasks[t].state.Cancelled? && !w.tasks[t].state.Expired?
      && w.book.funds[t].amount <= w.tasks[t].declared
  }

  /** A hold sits on a draft or open task that declares collectibles. */
  ghost predicate HoldsPlaced(w: World) {
    forall c <- w.vault.held ::
      && w.vault.held[c] in w.tasks
      && var t := w.tasks[w.vault.held[c]];
      && TakesCollectibles(t.reward)
      && (t.state.Draft? || t.state.Open?)
  }

  ghost predicate OneAccepted(w: World) {
    forall s, s' | s in w.submissions && s' in w.submissions
                   && w.submissions[s].state.Accepted? && w.submissions[s'].state.Accepted?
                   && w.submissions[s].task == w.submissions[s'].task :: s == s'
  }

  ghost predicate WorldInv(w: World) {
    && B.BookInv(w.book)
    && V.VaultInv(w.vault)
    && FundsPlaced(w)
    && HoldsPlaced(w)
    && OneAccepted(w)
  }

  // ---- commands on accounts ----

  /** A mint, to an account that may be new, keeps the books. */
  lemma MintKeeps(w: World, kind: B.Kind, account: Party, amount: CreditAmount, key: Key, events: multiset<Event>)
    requires WorldInv(w) && (kind.SignupGrant? || kind.ManualAdjustment?) && B.Mint(w.book, kind, account, amount, key).Ok?
    ensures WorldInv(w.(accounts := w.accounts + {account}, book := B.Mint(w.book, kind, account, amount, key).value, events := events))
  {
    hide B.BookInv, V.VaultInv;
    B.MintEffect(w.book, kind, account, amount, key);
  }

  lemma MintingKeeps(w: World, c: Command)
    requires WorldInv(w) && (c.OpenAccount? || c.SignupGrant? || c.OrganizationGrant? || c.Grant?) && Transact(w, c).Ok?
    ensures WorldInv(Transact(w, c).value.0)
  {
    var w' := Transact(w, c).value.0;
    match c
    case OpenAccount(_) =>
    case SignupGrant(user) =>
      if w' != w {
        assert w.accounts + {User(user)} == w.accounts;
        MintKeeps(w, B.SignupGrant, User(user), SIGNUP_GRANT, SignupKey(user), w.events);
        hide WorldInv;
      }
    case OrganizationGrant(org, verified) =>
      if verified {
        MintKeeps(w, B.SignupGrant, Organization(org), SIGNUP_GRANT, "org_grant:" + Text(org), w.events);
        hide WorldInv;
      }
    case Grant(target, amount, key, _) =>
      if w' != w {
        assert w.accounts + {target} == w.accounts;
        MintKeeps(w, B.ManualAdjustment, target, amount, key, w'.events);
        hide WorldInv;
      }
  }

  lemma SendKeeps(w: World, c: Command)
    requires WorldInv(w) && c.Send? && SendTx(w, c).Ok?
    ensures WorldInv(SendTx(w, c).value.0)
  {
    if B.Find(w.book.entries, c.source, c.key + ":send-debit").None? {
      B.MoveEffect(w.book, B.PeerTransfer, None, c.source, c.dest, c.amount, c.key + ":send-debit", c.key + ":send-credit");
    }
  }

  lemma FundKeeps(w: World, payer: Party, task: TaskId, amount: CreditAmount, key: Key, actor: UserId, spendOk: bool)
    requires WorldInv(w) && FundTx(w, payer, task, amount, key, actor, spendOk).Ok?
    ensures WorldInv(FundTx(w, payer, task, amount, key, actor, spendOk).value.0)
  {
    if FindFund(w, payer, task, key).None? {
      B.AllocateEffect(w.book, task, payer, amount, key);
    }
  }

  // ---- review ----

  function TipPaid(r: Review): int {
    if r.tip.Some? then r.tip.value else 0
  }

  /** A credit tip is one balanced move: fund rows stay, and what leaves the reviewer reaches the worker. */
  lemma CreditTipKeeps(w: World, book: B.Book, r: Review, worker: UserId)
    requires B.BookInv(book) && PayCreditTip(w, book, r, worker).Ok?
    ensures var c := PayCreditTip(w, book, r, worker).value;
      && B.BookInv(c) && B.Grows(book, c) && c.funds == book.funds
      && B.Total(c.entries, B.Minted) == B.Total(book.entries, B.Minted)
      && (forall a :: B.Balance(c, a) == B.Balance(book, a)
                                         - B.If(r.reviewer.ByUser? && a == User(r.reviewer.user), TipPaid(r))
                                         + B.If(a == User(worker), TipPaid(r)))
  {
    if r.tip.Some? {
      B.MoveEffect(book, B.TaskTip, Some(r.task), User(r.reviewer.user), User(worker), r.tip.value, r.key + ":tip-debit", r.key + ":tip-credit");
    }
  }

  lemma CollectibleTipKeeps(vault: V.Vault, r: Review, worker: UserId)
    requires V.VaultInv(vault) && PayCollectibleTip(vault, r, worker).Ok?
    ensures var v := PayCollectibleTip(vault, r, worker).value;
      V.VaultInv(v) && v.held == vault.held
  {
    if r.gift.Some? && vault.items[r.gift.value].state.Minted? {
      V.ReownKeeps(vault, r.gift.value, User(worker), vault.items[r.gift.value].scope);
    }
  }

  lemma AcceptKeeps(w: World, r: Review)
    requires WorldInv(w) && AcceptTx(w, r).Ok?
    ensures WorldInv(AcceptTx(w, r).value.0)
  {
    hide B.BookInv, V.VaultInv, PayCreditTip, PayCollectibleTip, ReviewEvents, SupersededEvents, FindPayout, CombinePayouts, CombineTips;
    var s := w.submissions[r.submission];
    if !s.state.Accepted? {
      var worker := User(s.worker);
      B.PayReviewKeeps(w.book, r.task, worker, worker in w.accounts, r.selection, r.key, true);
      B.PayReviewEffect(w.book, r.task, worker, worker in w.accounts, r.selection, r.key, true);
      CreditTipKeeps(w, B.PayReview(w.book, r.task, worker, worker in w.accounts, r.selection, r.key, true).value.0, r, s.worker);
      V.DeliverKeeps(w.vault, r.task, s.worker);
      CollectibleTipKeeps(V.Deliver(w.vault, r.task, s.worker), r, s.worker);
    }
  }

  /** The fund row of a reviewed task stays on its task, no larger than it was. */
  lemma ReviewKeepsPlacement(w: World, w': World, task: TaskId)
    requires FundsPlaced(w) && w'.tasks == w.tasks
    requires w'.book.funds.Keys <= w.book.funds.Keys
    requires forall t <- w'.book.funds :: w'.book.funds[t].amount <= w.book.funds[t].amount
    ensures FundsPlaced(w')
  {
  }

  lemma RejectKeeps(w: World, r: Review)
    requires WorldInv(w) && RejectTx(w, r).Ok?
    ensures WorldInv(RejectTx(w, r).value.0)
  {
    hide B.BookInv, V.VaultInv;
    var s := w.submissions[r.submission];
    if !s.state.Rejected? {
      var worker := User(s.worker);
      var w' := RejectTx(w, r).value.0;
      B.PayReviewKeeps(w.book, r.task, worker, worker in w.accounts, r.selection, r.key, false);
      B.PayReviewEffect(w.book, r.task, worker, worker in w.accounts, r.selection, r.key, false);
      CreditTipKeeps(w, B.PayReview(w.book, r.task, worker, worker in w.accounts, r.selection, r.key, false).value.0, r, s.worker);
      hide B.PayReview, PayCreditTip, FundsPlaced;
      ReviewKeepsPlacement(w, w', r.task);
    }
  }

  // ---- refunds and task state ----

  /** Settling a task both ways leaves it holding nothing, so any state suits it. */
  lemma SettleKeeps(w: World, task: TaskId, key: Option<Key>, state: TaskState)
    requires WorldInv(w) && task in w.tasks && B.Return(w.book, task, key).Ok?
    ensures WorldInv(w.(book := B.Return(w.book, task, key).value, vault := V.GiveBack(w.vault, task),
                        tasks := w.tasks[task := w.tasks[task].(state := state)]))
  {
    B.ReturnEffect(w.book, task, key);
    V.GiveBackKeeps(w.vault, task);
  }

  lemma RefundsKeep(w: World, c: Command)
    requires WorldInv(w) && (c.Refund? || c.RefundCollectible? || c.Expire?) && Transact(w, c).Ok?
    ensures WorldInv(Transact(w, c).value.0)
  {
    match c
    case Refund(_, task, key, _, _) =>
      if task in w.book.funds { SettleKeeps(w, task, Some(key), Cancelled); }
    case RefundCollectible(_, task, _) =>
      SettleKeeps(w, task, None, Cancelled);
    case Expire(task, _, _) =>
      SettleKeeps(w, task, Some("expire:" + Text(task)), Expired);
  }

  lemma ChangeStateKeeps(w: World, task: TaskId, seen: TaskState, transition: Transition, told: set<UserId>)
    requires WorldInv(w) && ChangeStateTx(w, task, seen, transition, told).Ok?
    ensures WorldInv(ChangeStateTx(w, task, seen, transition, told).value.0)
  {
    if TransitionTarget(seen, transition).value.Cancelled? { SettleKeeps(w, task, None, Cancelled); }
  }

  lemma CreateTaskKeeps(w: World, task: TaskId, creator: UserId, organization: Option<OrgId>, reward: RewardSpec)
    requires WorldInv(w) && CreateTaskTx(w, task, creator, organization, reward).Ok?
    ensures WorldInv(CreateTaskTx(w, task, creator, organization, reward).value.0)
  {
    var ids := match reward case Collectibles(ids) => ids case Bundle(_, ids) => ids case _ => [];
    var next := CreateTaskTx(w, task, creator, organization, reward).value.0;
    assert V.VaultInv(next.vault) by { V.EscrowAllKeeps(w.vault, ids, creator, task); }
    assert HoldsPlaced(next) by { V.EscrowAllEffect(w.vault, ids, creator, task); }
  }

  lemma FundCollectibleKeeps(w: World, funder: UserId, task: TaskId, collectible: CollectibleId)
    requires WorldInv(w) && FundCollectibleTx(w, funder, task, collectible).Ok?
    ensures WorldInv(FundCollectibleTx(w, funder, task, collectible).value.0)
  {
    V.EscrowKeeps(w.vault, collectible, funder, task);
  }

  lemma SubmissionsKeep(w: World, c: Command)
    requires WorldInv(w) && (c.Submit? || c.RequestChanges?) && Transact(w, c).Ok?
    ensures WorldInv(Transact(w, c).value.0)
  {
  }

  /** A vault change that leaves the holds alone leaves everything else alone too. */
  lemma VaultStepKeeps(w: World, vault: V.Vault, events: multiset<Event>)
    requires WorldInv(w) && V.VaultInv(vault) && vault.held == w.vault.held
    ensures WorldInv(w.(vault := vault, events := events)) && WorldInv(w.(vault := vault))
  {
    hide B.BookInv, V.VaultInv;
  }

  predicate Transfers(c: Command) {
    c.Gift? || c.AwardMember? || c.Donate? || c.HandOut?
  }

  lemma TransfersKeepVault(w: World, c: Command)
    requires V.VaultInv(w.vault) && Transfers(c) && CollectibleTx(w, c).Ok?
    ensures var vault := CollectibleTx(w, c).value.0.vault; V.VaultInv(vault) && vault.held == w.vault.held
  {
    hide V.VaultInv;
    var v := w.vault;
    match c
    case Gift(id, from, to, _) =>
      if v.items[id].owner != User(to) { V.ReownKeeps(v, id, User(to), v.items[id].scope); }
    case AwardMember(id, _, to, _) => V.ReownKeeps(v, id, User(to), None);
    case Donate(id, _, org, _) => V.ReownKeeps(v, id, Organization(org), Some(org));
    case HandOut(id, _, to, _, _) => V.ReownKeeps(v, id, User(to), None);
  }

  lemma CatalogKeepsVault(w: World, c: Command)
    requires V.VaultInv(w.vault) && !Transfers(c) && CollectibleTx(w, c).Ok?
    ensures var vault := CollectibleTx(w, c).value.0.vault; V.VaultInv(vault) && vault.held == w.vault.held
  {
    hide V.VaultInv, V.CapCoherent, V.Live, V.Instances, V.Numbers, MaxOf;
    var v := w.vault;
    match c
    case AwardFromCatalog(id, slug, owner, scope) => V.AwardKeeps(v, id, slug, owner, scope);
    case MintCustom(id, kind, policy, owner, scope) => V.MintKeeps(v, id, kind, policy, owner, scope);
    case Withdraw(id, _) => V.LifecycleKeeps(v, id);
    case Release(id, _) => V.LifecycleKeeps(v, id);
    case Delete(id) => V.LifecycleKeeps(v, id);
    case AddEntry(slug, entry) => V.EntriesKeep(v, slug, entry, true);
    case FlipEntry(slug, available) => V.EntriesKeep(v, slug, V.CatalogEntry(V.Badge, V.PayoutOnly, None, true), available);
    case DeleteEntry(slug) => V.EntriesKeep(v, slug, V.CatalogEntry(V.Badge, V.PayoutOnly, None, true), true);
    case _ =>
  }

  lemma CollectiblesTouchVaultAndEvents(w: World, c: Command)
    requires CollectibleTx(w, c).Ok?
    ensures var w' := CollectibleTx(w, c).value.0; w' == w.(vault := w'.vault, events := w'.events)
  {
  }

  lemma CollectiblesKeep(w: World, c: Command)
    requires WorldInv(w) && CollectibleTx(w, c).Ok?
    ensures WorldInv(CollectibleTx(w, c).value.0)
  {
    hide CollectibleTx;
    var w' := CollectibleTx(w, c).value.0;
    if Transfers(c) { TransfersKeepVault(w, c); } else { CatalogKeepsVault(w, c); }
    CollectiblesTouchVaultAndEvents(w, c);
    VaultStepKeeps(w, w'.vault, w'.events);
  }

  // ---- every step, every run ----

  lemma StepKeeps(w: World, c: Command)
    requires WorldInv(w)
    ensures WorldInv(Step(w, c).0)
  {
    if Transact(w, c).Ok? {
      match c
      case OpenAccount(_) => MintingKeeps(w, c);
      case SignupGrant(_) => MintingKeeps(w, c);
      case OrganizationGrant(_, _) => MintingKeeps(w, c);
      case Grant(_, _, _, _) => MintingKeeps(w, c);
      case Send(_, _, _, _, _, _, _, _) => SendKeeps(w, c);
      case Fund(payer, task, amount, key, actor, spendOk) => FundKeeps(w, payer, task, amount, key, actor, spendOk);
      case Accept(r) => AcceptKeeps(w, r);
      case Reject(r) => RejectKeeps(w, r);
      case RequestChanges(_) => SubmissionsKeep(w, c);
      case Refund(_, _, _, _, _) => RefundsKeep(w, c);
      case RefundCollectible(_, _, _) => RefundsKeep(w, c);
      case Expire(_, _, _) => RefundsKeep(w, c);
      case ChangeState(task, seen, transition, told) => ChangeStateKeeps(w, task, seen, transition, told);
      case CreateTask(task, creator, organization, reward) => CreateTaskKeeps(w, task, creator, organization, reward);
      case Submit(_, _, _, _) => SubmissionsKeep(w, c);
      case FundCollectible(funder, task, collectible) => FundCollectibleKeeps(w, funder, task, collectible);
      case _ => CollectiblesKeep(w, c);
    }
  }

  lemma EmptyKeeps()
    ensures WorldInv(EMPTY)
  {
  }

  lemma {:induction false} RunKeeps(w: World, commands: seq<Command>)
    requires WorldInv(w)
    ensures WorldInv(Run(w, commands))
  {
    if commands != [] {
      RunKeeps(w, commands[..|commands| - 1]);
      StepKeeps(Run(w, commands[..|commands| - 1]), commands[|commands| - 1]);
    }
  }
}
