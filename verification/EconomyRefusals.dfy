/**
 Why a command is refused. A reason says something of the tables and the command,
 and every refusal is proved to say something true, for each of the 28 commands.
 */
module EconomyRefusals {
  import opened Prelude
  import opened Economy
  import opened EconomyInvariant
  import opened EconomyRules
  import B = Book
  import V = Vault

  // ---- credits ----

  ghost predicate ExplainsKeyed(w: World, c: Command, reason: Reason)
    requires KeySlot(c).Some?
  {
    match reason
    case NoAccount => KeySlot(c).value.0 !in w.accounts || (c.Send? && c.dest !in w.accounts)
    case KeyReused => SlotUsed(w, c) && !SlotRecords(w, c)
    case SelfTransfer => c.Send? && c.source == c.dest
    case PermissionDenied => c.Send? && c.source.Organization? && !c.billing
    case InsufficientCredits => (c.Send? && B.Balance(w.book, c.source) < c.amount) || (c.Fund? && B.Balance(w.book, c.payer) < c.amount)
    case SpendRefused => (c.Send? && !c.spendOk) || (c.Fund? && !c.spendOk)
    case ConstraintViolated => c.Send? && Used(w, c.dest, c.key + ":send-credit")
    case _ => c.Fund? && ExplainsFund(w, c, reason)
  }

  ghost predicate ExplainsFund(w: World, c: Command, reason: Reason)
    requires c.Fund?
  {
    match reason
    case TaskNotFound => c.task !in w.tasks
    case NotTaskOwner => c.task in w.tasks && !MayFund(w, c.task, c.payer)
    case TaskNotDraft => c.task in w.tasks && w.tasks[c.task].state != Draft
    case AmountMismatch => c.task in w.tasks && w.tasks[c.task].reward in {CreditReward, BundleReward} && w.tasks[c.task].declared != c.amount
    case AlreadyFunded => c.task in w.book.funds
    case _ => false
  }

  lemma FundExplained(w: World, c: Command)
    requires WorldInv(w) && c.Fund? && Transact(w, c).Refuse?
    ensures ExplainsKeyed(w, c, Transact(w, c).reason)
  {
    hide WorldInv, B.Balance, B.Find, Used;
    UniqueKeys(w);
    FindIs(w, c.payer, c.key);
  }

  lemma SendExplained(w: World, c: Command)
    requires WorldInv(w) && c.Send? && Transact(w, c).Refuse?
    ensures ExplainsKeyed(w, c, Transact(w, c).reason)
  {
    hide WorldInv, B.Balance, B.Find, Used, ExplainsFund;
    UniqueKeys(w);
    FindIs(w, c.source, c.key + ":send-debit");
    FindIs(w, c.dest, c.key + ":send-credit");
    assert |c.key + ":send-debit"| < |c.key + ":send-credit"|;
    LastNotFound(w.book.entries, B.Entry(c.source, B.PeerTransfer, -(c.amount as int), None, Some(c.key + ":send-debit")), c.dest, c.key + ":send-credit");
  }

  lemma GrantExplained(w: World, c: Command)
    requires WorldInv(w) && (c.Grant? || c.SignupGrant?) && Transact(w, c).Refuse?
    ensures ExplainsKeyed(w, c, Transact(w, c).reason)
  {
    hide WorldInv, B.Find, Used, ExplainsFund;
    UniqueKeys(w);
    FindIs(w, KeySlot(c).value.0, KeySlot(c).value.1);
  }

  // ---- reviews ----

  predicate IsReview(c: Command) {
    c.Accept? || c.Reject? || c.RequestChanges?
  }

  function ReviewOf(c: Command): Review
    requires IsReview(c)
  {
    match c
    case Accept(r) => r
    case Reject(r) => r
    case RequestChanges(r) => r
  }

  /** Who reviews, and what state task and submission are in. */
  ghost predicate ExplainsDecision(w: World, c: Command, reason: Reason)
    requires IsReview(c)
  {
    var r := ReviewOf(c);
    match reason
    case TaskNotFound => r.task !in w.tasks
    case NotReviewer => r.task in w.tasks && !MayReview(w, r.task, r.reviewer)
    case TaskNotOpen => r.task in w.tasks && w.tasks[r.task].state != Open
    case SubmissionNotFound => !SubmissionIs(w, r)
    case SubmissionNotReviewable => SubmissionIs(w, r) && w.submissions[r.submission].state != Submitted
    case AcceptedWithOtherKey => c.Accept? && SubmissionIs(w, r) && w.submissions[r.submission].state == Accepted && w.submissions[r.submission].acceptKey != Some(r.key)
    case RejectedWithOtherKey => c.Reject? && SubmissionIs(w, r) && w.submissions[r.submission].state == Rejected && w.submissions[r.submission].rejectKey != Some(r.key)
    case ChangesWithOtherKey =>
      c.RequestChanges? && SubmissionIs(w, r) && w.submissions[r.submission].state == ChangesRequested && w.submissions[r.submission].changesKey != Some(r.key)
    case AlreadyHasAccepted => c.Accept? && !NoneAccepted(w, r.task)
    case SpendRefused => !r.spendOk
    case _ => false
  }

  /** What is paid out, from which row, to whom, and what is tipped by whom. */
  ghost predicate ExplainsPayment(w: World, r: Review, closing: bool, reason: Reason)
    requires r.submission in w.submissions
  {
    match reason
    case FundMissing => r.task !in w.book.funds || (closing && Pays(w, r) <= 0 && !HoldsSome(w, r.task))
    case PayoutExceedsFund => r.selection.Partial? && r.task in w.book.funds && r.selection.amount > w.book.funds[r.task].amount
    case NoAccount => User(Worker(w, r)) !in w.accounts || (r.tip.Some? && r.reviewer.ByUser? && User(r.reviewer.user) !in w.accounts)
    case OrganizationCannotPay => r.reviewer.ByOrganization? && (r.tip.Some? || (closing && r.gift.Some?) || (!closing && r.ban))
    case InsufficientCredits =>
      r.tip.Some? && r.reviewer.ByUser? && B.Balance(w.book, User(r.reviewer.user)) + PaidOut(w, r, closing, User(r.reviewer.user)) < r.tip.value
    case ConstraintViolated =>
      || (Pays(w, r) > 0 && Used(w, User(Worker(w, r)), r.key))
      || (r.tip.Some? && r.reviewer.ByUser? && (Used(w, User(r.reviewer.user), r.key + ":tip-debit") || Used(w, User(Worker(w, r)), r.key + ":tip-credit")))
    case _ => false
  }

  /** Why a collectible does not leave a user's hands. */
  predicate Kept(w: World, i: CollectibleId, giver: UserId, shared: bool, reason: Reason) {
    match reason
    case CollectibleNotAvailable => i in w.vault.items ==> w.vault.items[i].owner != User(giver) || w.vault.items[i].state != V.Minted
    case PolicyForbids => i in w.vault.items && !Tippable(w.vault.items[i])
    case WrongOrganization => i in w.vault.items && w.vault.items[i].policy == V.WithinOrganization && (w.vault.items[i].scope.None? || !shared)
    case _ => false
  }

  ghost predicate ExplainsReview(w: World, c: Command, reason: Reason)
    requires IsReview(c)
  {
    var r := ReviewOf(c);
    || ExplainsDecision(w, c, reason)
    || (!c.RequestChanges? && r.submission in w.submissions && ExplainsPayment(w, r, c.Accept?, reason))
    || (c.Accept? && r.gift.Some? && r.reviewer.ByUser? && Kept(w, r.gift.value, r.reviewer.user, r.shared, reason))
  }

  lemma PayoutExplained(w: World, r: Review, closing: bool)
    requires WorldInv(w) && r.submission in w.submissions
    requires B.PayReview(w.book, r.task, User(Worker(w, r)), User(Worker(w, r)) in w.accounts, r.selection, r.key, closing).Refuse?
    ensures ExplainsPayment(w, r, closing, B.PayReview(w.book, r.task, User(Worker(w, r)), User(Worker(w, r)) in w.accounts, r.selection, r.key, closing).reason)
  {
    UniqueKeys(w);
    FindIs(w, User(Worker(w, r)), r.key);
    assert r.task in w.book.funds ==> w.book.funds[r.task].amount > 0;
    hide WorldInv, B.Find, Used, PaidOut, HoldsSome;
  }

  lemma TipExplained(w: World, r: Review, closing: bool)
    requires WorldInv(w) && r.submission in w.submissions
    requires var pay := B.PayReview(w.book, r.task, User(Worker(w, r)), User(Worker(w, r)) in w.accounts, r.selection, r.key, closing);
      pay.Ok? && PayCreditTip(w, pay.value.0, r, Worker(w, r)).Refuse?
    ensures var pay := B.PayReview(w.book, r.task, User(Worker(w, r)), User(Worker(w, r)) in w.accounts, r.selection, r.key, closing);
      ExplainsPayment(w, r, closing, PayCreditTip(w, pay.value.0, r, Worker(w, r)).reason)
  {
    hide WorldInv, B.PayReview, B.Balance, B.Find, PaidOut, Used, PayoutEntries, FundsAfterPayout, HoldsSome;
    var book := B.PayReview(w.book, r.task, User(Worker(w, r)), User(Worker(w, r)) in w.accounts, r.selection, r.key, closing).value.0;
    PayoutDone(w, r, closing);
    if r.reviewer.ByUser? {
      var (from, to) := (User(r.reviewer.user), User(Worker(w, r)));
      PaidBalance(w, r, closing, from);
      UnusedAfterPayout(w, r, closing, from, ":tip-debit");
      UnusedAfterPayout(w, r, closing, to, ":tip-credit");
      assert |r.key + ":tip-debit"| < |r.key + ":tip-credit"|;
      LastNotFound(book.entries, B.Entry(from, B.TaskTip, -(if r.tip.Some? then r.tip.value else 1), Some(r.task), Some(r.key + ":tip-debit")), to, r.key + ":tip-credit");
    }
  }

  lemma GiftExplained(w: World, r: Review)
    requires r.submission in w.submissions && PayCollectibleTip(V.Deliver(w.vault, r.task, Worker(w, r)), r, Worker(w, r)).Refuse?
    ensures var reason := PayCollectibleTip(V.Deliver(w.vault, r.task, Worker(w, r)), r, Worker(w, r)).reason;
      || ExplainsPayment(w, r, true, reason)
      || (r.gift.Some? && r.reviewer.ByUser? && Kept(w, r.gift.value, r.reviewer.user, r.shared, reason))
  {
    hide HoldsSome, PaidOut, Used;
  }

  lemma RewardExplained(w: World, r: Review)
    requires WorldInv(w) && SubmissionIs(w, r) && r.task in w.tasks && PayReward(w, r, w.tasks[r.task], Worker(w, r)).Refuse?
    ensures ExplainsPayment(w, r, true, PayReward(w, r, w.tasks[r.task], Worker(w, r)).reason)
  {
    hide WorldInv, B.PayReview, V.HeldBy, V.Deliver, HoldsSome, PaidOut, Used;
    HeldByIs(w, r.task);
    CreditsOfReview(w, r, true);
    if B.PayReview(w.book, r.task, User(Worker(w, r)), User(Worker(w, r)) in w.accounts, r.selection, r.key, true).Refuse? { PayoutExplained(w, r, true); }
  }

  lemma FirstAcceptExplained(w: World, r: Review)
    requires WorldInv(w) && SubmissionIs(w, r) && r.task in w.tasks
    requires FirstAccept(w, r, w.tasks[r.task], w.submissions[r.submission]).Refuse?
    ensures var reason := FirstAccept(w, r, w.tasks[r.task], w.submissions[r.submission]).reason;
      || (reason == SpendRefused && !r.spendOk)
      || ExplainsPayment(w, r, true, reason)
      || (r.gift.Some? && r.reviewer.ByUser? && Kept(w, r.gift.value, r.reviewer.user, r.shared, reason))
  {
    hide WorldInv, B.PayReview, PayReward, PayCreditTip, PayCollectibleTip, V.Deliver, ExplainsPayment, Kept, ReviewEvents, SupersededEvents, Supersede, Competing;
    RewardGoesThrough(w, r);
    if PayReward(w, r, w.tasks[r.task], Worker(w, r)).Refuse? {
      RewardExplained(w, r);
    } else if r.spendOk {
      CreditsOfReview(w, r, true);
      var paid := B.PayReview(w.book, r.task, User(Worker(w, r)), User(Worker(w, r)) in w.accounts, r.selection, r.key, true);
      if PayCreditTip(w, paid.value.0, r, Worker(w, r)).Refuse? { TipExplained(w, r, true); } else { GiftExplained(w, r); }
    }
  }

  lemma AcceptExplained(w: World, c: Command)
    requires WorldInv(w) && c.Accept? && Transact(w, c).Refuse?
    ensures ExplainsReview(w, c, Transact(w, c).reason)
  {
    hide WorldInv, FirstAccept, ExplainsPayment, Kept, FindPayout;
    var r := c.review;
    AcceptedExists(w, r.task);
    if SubmissionIs(w, r) && r.task in w.tasks && FirstAccept(w, r, w.tasks[r.task], w.submissions[r.submission]).Refuse? {
      FirstAcceptExplained(w, r);
    }
  }

  lemma RejectExplained(w: World, c: Command)
    requires WorldInv(w) && c.Reject? && Transact(w, c).Refuse?
    ensures ExplainsReview(w, c, Transact(w, c).reason)
  {
    hide WorldInv, B.PayReview, PayCreditTip, ReviewEvents, HoldsSome, PaidOut, Used, Kept;
    var r := c.review;
    if SubmissionIs(w, r) {
      var paid := B.PayReview(w.book, r.task, User(Worker(w, r)), User(Worker(w, r)) in w.accounts, r.selection, r.key, false);
      if paid.Refuse? { PayoutExplained(w, r, false); }
      else if PayCreditTip(w, paid.value.0, r, Worker(w, r)).Refuse? { TipExplained(w, r, false); }
    }
  }

  lemma RequestChangesExplained(w: World, c: Command)
    requires c.RequestChanges? && Transact(w, c).Refuse?
    ensures ExplainsReview(w, c, Transact(w, c).reason)
  {
    hide ExplainsPayment, Kept;
  }

  // ---- refunds and task state ----

  ghost predicate ExplainsSettling(w: World, c: Command, reason: Reason)
    requires c.Refund? || c.RefundCollectible? || c.ChangeState? || c.Expire?
  {
    match reason
    case TaskNotFound => c.task !in w.tasks
    case PermissionDenied => (c.Refund? || c.RefundCollectible?) && c.task in w.tasks && w.tasks[c.task].creator != c.requester && !c.implementor
    case TaskNotRefundable => (c.Refund? || c.RefundCollectible?) && c.task in w.tasks && w.tasks[c.task].state !in {Draft, Open}
    case NothingToRefund => (c.Refund? && c.task !in w.book.funds) || (c.RefundCollectible? && !HoldsSome(w, c.task))
    case BundleRefundedTogether => c.RefundCollectible? && c.task in w.tasks && w.tasks[c.task].reward == BundleReward
    case KeyReused => c.Refund? && exists e <- w.book.entries :: e.key == Some(c.key)
    case RewardNotFunded => c.ChangeState? && c.transition == Opening && c.task in w.tasks && !Covered(w, c.task)
    case BadTransition =>
      || (c.ChangeState? && forall target :: !Leads(c.seen, c.transition, target))
      || (c.Expire? && (!c.due || !InState(w, c.task, {Open})))
    case ConstraintViolated => c.Expire? && c.task in w.book.funds && Used(w, w.book.funds[c.task].funder, "expire:" + Text(c.task))
    case _ => false
  }

  lemma ReturnExplained(w: World, task: TaskId, key: Option<Key>)
    requires B.Return(w.book, task, key).Refuse?
    ensures B.Return(w.book, task, key).reason == ConstraintViolated
  {
  }

  lemma RefundExplained(w: World, c: Command)
    requires WorldInv(w) && c.Refund? && Transact(w, c).Refuse?
    ensures ExplainsSettling(w, c, Transact(w, c).reason)
  {
    UniqueKeys(w);
    RefundFound(w.book.entries, c.task, c.key);
    ReturnGoesThrough(w, c.task, Some(c.key));
    if c.task in w.book.funds { FindIs(w, w.book.funds[c.task].funder, c.key); }
    hide WorldInv, B.Find, B.Return, FindRefund, HoldsSome, Covered;
  }

  lemma SettlingExplained(w: World, c: Command)
    requires WorldInv(w) && (c.RefundCollectible? || c.ChangeState? || c.Expire?) && Transact(w, c).Refuse?
    ensures ExplainsSettling(w, c, Transact(w, c).reason)
  {
    hide WorldInv, B.Find, B.Return, V.HeldBy, V.GiveBack, HoldsSome, Used;
    HeldByIs(w, c.task);
    match c
    case Expire(task, _, _) =>
      ReturnGoesThrough(w, task, Some("expire:" + Text(task)));
      if B.Return(w.book, task, Some("expire:" + Text(task))).Refuse? { ReturnExplained(w, task, Some("expire:" + Text(task))); }
    case ChangeState(task, seen, t, _) =>
      ReturnGoesThrough(w, task, None);
      if TransitionTarget(seen, t).Refuse? {
        forall target ensures !Leads(seen, t, target) {}
      }
    case _ =>
  }

  // ---- what is new ----

  /** Why a collectible cannot become a reward. */
  predicate Unfit(w: World, i: CollectibleId, funder: UserId, reason: Reason) {
    match reason
    case CollectibleNotFound => i !in w.vault.items
    case NotCollectibleOwner => i in w.vault.items && w.vault.items[i].owner != User(funder)
    case CollectibleNotAvailable => i in w.vault.items && w.vault.items[i].state != V.Minted
    case PolicyForbids => i in w.vault.items && w.vault.items[i].policy == V.IssuerControlled
    case _ => false
  }

  ghost predicate ExplainsGrowing(w: World, c: Command, reason: Reason) {
    match c
    case OpenAccount(owner) => reason == ConstraintViolated && owner in w.accounts
    case OrganizationGrant(org, _) => reason == ConstraintViolated && (Organization(org) in w.accounts || Used(w, Organization(org), "org_grant:" + Text(org)))
    case Submit(submission, task, _, _) => reason == ConstraintViolated && (submission in w.submissions || task !in w.tasks)
    case CreateTask(task, creator, _, reward) =>
      || (reason == ConstraintViolated && task in w.tasks)
      || (exists i <- Offered(reward) :: Unfit(w, i, creator, reason))
      || (reason == CollectibleNotAvailable && exists i, j :: 0 <= i < j < |Offered(reward)| && Offered(reward)[i] == Offered(reward)[j])
    case FundCollectible(funder, task, i) =>
      || Unfit(w, i, funder, reason)
      || (reason == TaskNotFound && task !in w.tasks)
      || (reason == NotTaskOwner && task in w.tasks && w.tasks[task].creator != funder)
      || (reason == TaskNotDraft && task in w.tasks && w.tasks[task].state != Draft)
    case _ => false
  }

  lemma EscrowExplained(w: World, v: V.Vault, i: CollectibleId, funder: UserId, task: TaskId)
    requires V.EscrowInv(v) && V.Escrow(v, i, funder, task).Refuse?
    requires i in v.items <==> i in w.vault.items
    requires i in v.items ==> v.items[i].owner == w.vault.items[i].owner && v.items[i].policy == w.vault.items[i].policy
    ensures var reason := V.Escrow(v, i, funder, task).reason;
      Unfit(w, i, funder, reason) || (reason == CollectibleNotAvailable && i in v.items && v.items[i].state != V.Minted)
  {
  }

  lemma {:induction false} EscrowAllExplained(w: World, ids: seq<CollectibleId>, funder: UserId, task: TaskId)
    requires V.VaultInv(w.vault) && V.EscrowAll(w.vault, ids, funder, task).Refuse?
    ensures var reason := V.EscrowAll(w.vault, ids, funder, task).reason;
      || (exists i <- ids :: Unfit(w, i, funder, reason))
      || (reason == CollectibleNotAvailable && exists i, j :: 0 <= i < j < |ids| && ids[i] == ids[j])
  {
    hide V.VaultInv, V.Escrow, Unfit, V.CatalogInv;
    var n := |ids| - 1;
    assert ids != [] by { NothingToEscrow(w, funder, task); }
    assert forall i :: i in ids[..n] ==> i in ids;
    if V.EscrowAll(w.vault, ids[..n], funder, task).Refuse? {
      EscrowAllExplained(w, ids[..n], funder, task);
      if i, j :| 0 <= i < j < |ids[..n]| && ids[..n][i] == ids[..n][j] { assert ids[i] == ids[j]; }
    } else {
      LastEscrowExplained(w, ids, funder, task);
    }
  }

  lemma NothingToEscrow(w: World, funder: UserId, task: TaskId)
    ensures V.EscrowAll(w.vault, [], funder, task).Ok?
  {
  }

  lemma LastEscrowExplained(w: World, ids: seq<CollectibleId>, funder: UserId, task: TaskId)
    requires V.VaultInv(w.vault) && ids != [] && V.EscrowAll(w.vault, ids[..|ids| - 1], funder, task).Ok?
    requires V.Escrow(V.EscrowAll(w.vault, ids[..|ids| - 1], funder, task).value, ids[|ids| - 1], funder, task).Refuse?
    ensures var reason := V.Escrow(V.EscrowAll(w.vault, ids[..|ids| - 1], funder, task).value, ids[|ids| - 1], funder, task).reason;
      || Unfit(w, ids[|ids| - 1], funder, reason)
      || (reason == CollectibleNotAvailable && exists i, j :: 0 <= i < j < |ids| && ids[i] == ids[j])
  {
    hide V.EscrowAll, V.Escrow, V.CatalogInv;
    var n := |ids| - 1;
    V.EscrowAllEffect(w.vault, ids[..n], funder, task);
    V.EscrowAllKeeps(w.vault, ids[..n], funder, task);
    EscrowExplained(w, V.EscrowAll(w.vault, ids[..n], funder, task).value, ids[n], funder, task);
    if ids[n] in ids[..n] {
      var i :| 0 <= i < n && ids[..n][i] == ids[n];
      assert ids[i] == ids[n];
    }
  }

  lemma GrowingExplained(w: World, c: Command)
    requires WorldInv(w) && (c.OpenAccount? || c.OrganizationGrant? || c.Submit? || c.FundCollectible?) && Transact(w, c).Refuse?
    ensures ExplainsGrowing(w, c, Transact(w, c).reason)
  {
    UniqueKeys(w);
    if c.OrganizationGrant? { FindIs(w, Organization(c.newOrg), "org_grant:" + Text(c.newOrg)); }
    assert V.EscrowInv(w.vault);
    hide WorldInv, B.Find, Used;
  }

  lemma CreateTaskExplained(w: World, c: Command)
    requires WorldInv(w) && c.CreateTask? && Transact(w, c).Refuse?
    ensures ExplainsGrowing(w, c, Transact(w, c).reason)
  {
    hide V.EscrowAll, Unfit, V.VaultInv, B.BookInv;
    if V.EscrowAll(w.vault, Offered(c.reward), c.creator, c.task).Refuse? { EscrowAllExplained(w, Offered(c.reward), c.creator, c.task); }
  }

  // ---- collectibles and the catalog ----

  predicate OfOrganization(w: World, i: CollectibleId, org: OrgId) {
    i in w.vault.items && w.vault.items[i].owner.Organization? && w.vault.items[i].scope == Some(org)
  }

  ghost predicate ExplainsTransfer(w: World, c: Command, reason: Reason) {
    match c
    case Gift(i, from, _, shared) => Kept(w, i, from, shared, reason)
    case Donate(i, from, org, member) =>
      if reason == WrongOrganization then i in w.vault.items && w.vault.items[i].policy == V.WithinOrganization && (w.vault.items[i].scope != Some(org) || !member)
      else Kept(w, i, from, true, reason)
    case AwardMember(i, org, _, member) =>
      || (reason == PermissionDenied && !member)
      || (reason == CollectibleNotAvailable && (i in w.vault.items ==> w.vault.items[i].state != V.Minted))
      || (reason == WrongOrganization && !OfOrganization(w, i, org))
    case HandOut(i, org, _, permitted, _) =>
      || (reason == PermissionDenied && !permitted)
      || (reason == CollectibleNotAvailable && (i in w.vault.items ==> w.vault.items[i].state != V.Minted))
      || (reason == WrongOrganization && !OfOrganization(w, i, org))
      || (reason == PolicyForbids && i in w.vault.items && !Tippable(w.vault.items[i]))
    case _ => false
  }

  ghost predicate ExplainsCatalog(w: World, c: Command, reason: Reason) {
    match c
    case MintCustom(i, _, _, _, _) => reason == ConstraintViolated && i in w.vault.items
    case AwardFromCatalog(i, slug, _, _) =>
      || (reason == ConstraintViolated && i in w.vault.items)
      || (reason == EntryNotFound && slug !in w.vault.catalog)
      || (reason == EntryUnavailable && slug in w.vault.catalog && !w.vault.catalog[slug].available)
      || (reason == LiveInstanceExists && slug in w.vault.catalog && w.vault.catalog[slug].kind == V.Unique && !RoomFor(w, slug))
      || (reason == CapReached && slug in w.vault.catalog && w.vault.catalog[slug].kind == V.Edition && !RoomFor(w, slug))
    case Withdraw(i, _) =>
      || (reason == CollectibleNotFound && i !in w.vault.items)
      || (reason == NotFromCatalog && i in w.vault.items && w.vault.items[i].catalog.None?)
      || (reason == CollectibleNotAvailable && i in w.vault.items && w.vault.items[i].state != V.Minted)
    case Release(i, _) =>
      || (reason == CollectibleNotFound && i !in w.vault.items)
      || (reason == NotWithdrawn && i in w.vault.items && w.vault.items[i].state != V.Withdrawn)
      || (reason == LiveInstanceExists && i in w.vault.items && w.vault.items[i].kind == V.Unique &&
          exists j <- w.vault.items :: w.vault.items[j].catalog == w.vault.items[i].catalog && w.vault.items[j].state != V.Withdrawn)
    case Delete(i) =>
      || (reason == NotWithdrawn && (i in w.vault.items ==> w.vault.items[i].state != V.Withdrawn))
      || (reason == CollectibleNotAvailable && i in w.vault.held)
    case AddEntry(slug, e) =>
      || (reason == AlreadyExists && slug in w.vault.catalog)
      || (reason == BadCap && !((e.kind == V.Unique ==> e.cap == Some(1)) && (e.kind == V.Edition ==> e.cap.Some? && e.cap.value >= 1) && (e.kind == V.Badge ==> e.cap.None?)))
    case FlipEntry(slug, available) => reason == EntryUnavailable && (slug in w.vault.catalog ==> w.vault.catalog[slug].available == available)
    case DeleteEntry(slug) =>
      || (reason == EntryNotFound && slug !in w.vault.catalog)
      || (reason == EntryUnavailable && slug in w.vault.catalog && w.vault.catalog[slug].available)
      || (reason == EntryHasInstances && exists i :: FromEntry(w, i, slug))
    case _ => false
  }

  lemma TransferExplained(w: World, c: Command)
    requires Transfers(c) && Transact(w, c).Refuse?
    ensures ExplainsTransfer(w, c, Transact(w, c).reason)
  {
  }

  lemma AwardExplained(w: World, c: Command)
    requires WorldInv(w) && c.AwardFromCatalog? && Transact(w, c).Refuse?
    ensures ExplainsCatalog(w, c, Transact(w, c).reason)
  {
    AwardGoesThrough(w, c);
    if c.slug in w.vault.catalog {
      var (e, numbers) := (w.vault.catalog[c.slug], V.Numbers(w.vault, c.slug));
      assert V.CapCoherent(e);
      hide WorldInv;
      if numbers != {} {
        var i :| i in V.Instances(w.vault, c.slug) && w.vault.items[i].edition == Some(MaxOf(numbers));
        assert FromEntry(w, i, c.slug);
      }
      if i :| i in V.Live(w.vault, c.slug) { assert FromEntry(w, i, c.slug); }
    }
  }

  lemma ReleaseExplained(w: World, c: Command)
    requires WorldInv(w) && c.Release? && Transact(w, c).Refuse?
    ensures ExplainsCatalog(w, c, Transact(w, c).reason)
  {
    if c.collectible in w.vault.items {
      assert V.InstanceOk(w.vault, w.vault.items[c.collectible]);
      hide WorldInv;
      var slug := w.vault.items[c.collectible].catalog;
      if slug.Some? {
        if i :| i in V.Live(w.vault, slug.value) { assert w.vault.items[i].catalog == slug && w.vault.items[i].state != V.Withdrawn; }
      }
    }
  }

  lemma InstancesExplained(w: World, c: Command)
    requires (c.MintCustom? || c.Withdraw? || c.Delete?) && Transact(w, c).Refuse?
    ensures ExplainsCatalog(w, c, Transact(w, c).reason)
  {
  }

  lemma EntriesExplained(w: World, c: Command)
    requires (c.AddEntry? || c.FlipEntry? || c.DeleteEntry?) && Transact(w, c).Refuse?
    ensures ExplainsCatalog(w, c, Transact(w, c).reason)
  {
    if c.DeleteEntry? {
      if i :| i in V.Instances(w.vault, c.slug) { assert FromEntry(w, i, c.slug); }
    }
  }

  // ---- every command ----

  ghost predicate Explains(w: World, c: Command, reason: Reason) {
    if KeySlot(c).Some? then ExplainsKeyed(w, c, reason)
    else if IsReview(c) then ExplainsReview(w, c, reason)
    else if c.Refund? || c.RefundCollectible? || c.ChangeState? || c.Expire? then ExplainsSettling(w, c, reason)
    else ExplainsGrowing(w, c, reason) || ExplainsTransfer(w, c, reason) || ExplainsCatalog(w, c, reason)
  }

  /** Every refusal tells the truth, and leaves every table as it was. */
  lemma RefusalsTellTheTruth(w: World, c: Command)
    requires WorldInv(w) && Step(w, c).1.Refused?
    ensures Step(w, c).0 == w && Explains(w, c, Step(w, c).1.reason)
  {
    hide WorldInv, Transact, ExplainsKeyed, ExplainsReview, ExplainsSettling, ExplainsGrowing, ExplainsTransfer, ExplainsCatalog;
    RepliesWhenOk(w, c);
    match c
    case Fund(_, _, _, _, _, _) => FundExplained(w, c);
    case Send(_, _, _, _, _, _, _, _) => SendExplained(w, c);
    case Grant(_, _, _, _) => GrantExplained(w, c);
    case SignupGrant(_) => GrantExplained(w, c);
    case Accept(_) => AcceptExplained(w, c);
    case Reject(_) => RejectExplained(w, c);
    case RequestChanges(_) => RequestChangesExplained(w, c);
    case Refund(_, _, _, _, _) => RefundExplained(w, c);
    case RefundCollectible(_, _, _) => SettlingExplained(w, c);
    case ChangeState(_, _, _, _) => SettlingExplained(w, c);
    case Expire(_, _, _) => SettlingExplained(w, c);
    case CreateTask(_, _, _, _) => CreateTaskExplained(w, c);
    case _ => VaultRefusalExplained(w, c);
  }

  lemma VaultRefusalExplained(w: World, c: Command)
    requires WorldInv(w) && Transact(w, c).Refuse?
    requires c.OpenAccount? || c.OrganizationGrant? || c.Submit? || c.FundCollectible? || Transfers(c)
          || c.MintCustom? || c.AwardFromCatalog? || c.Withdraw? || c.Release? || c.Delete? || c.AddEntry? || c.FlipEntry? || c.DeleteEntry?
    ensures ExplainsGrowing(w, c, Transact(w, c).reason) || ExplainsTransfer(w, c, Transact(w, c).reason) || ExplainsCatalog(w, c, Transact(w, c).reason)
  {
    hide WorldInv, Transact, ExplainsGrowing, ExplainsTransfer, ExplainsCatalog;
    if Transfers(c) { TransferExplained(w, c); }
    else if c.AwardFromCatalog? { AwardExplained(w, c); }
    else if c.Release? { ReleaseExplained(w, c); }
    else if c.MintCustom? || c.Withdraw? || c.Delete? { InstancesExplained(w, c); }
    else if c.AddEntry? || c.FlipEntry? || c.DeleteEntry? { EntriesExplained(w, c); }
    else { GrowingExplained(w, c); }
  }
}
