/**
 The escrow economy: the tables a command touches, every command as a
 transaction from one database state to the next, and runs of commands.
 Facts read from tables outside the model (memberships, reservations, spend
 budgets) arrive with the command; `told` is whom a command's event draft names
 besides those the transaction itself resolves.
 */
module Economy {
  import opened Prelude
  import B = Book
  import V = Vault

  // ---- tables ----

  datatype TaskState = Draft | Open | Closed | Cancelled | Expired
  datatype Reward = NoReward | CreditReward | CollectibleReward | BundleReward

  /** `declared` is reward_credit_amount, 0 where the column is null. */
  datatype Task = Task(state: TaskState, creator: UserId, organization: Option<OrgId>, reward: Reward, declared: int)

  datatype SubmissionState = Submitted | Invalid | Accepted | Rejected | ChangesRequested | Superseded

  datatype Submission = Submission(task: TaskId, worker: UserId, state: SubmissionState,
                                   acceptKey: Option<Key>, rejectKey: Option<Key>, changesKey: Option<Key>)

  datatype EventKind =
    | TaskFunded | TaskOpened | TaskCancelled | TaskExpired | SubmissionCreated | SubmissionAccepted | SubmissionRejected
    | SubmissionChangesRequested | SubmissionSuperseded | PayoutReceived | TipReceived | CreditGranted | CreditsSent
    | CollectibleMoved | CollectibleWithdrawn | CollectibleReleased

  datatype Subject = NoSubject | OnTask(task: TaskId) | OnSubmission(of: TaskId, submission: SubmissionId) | OnCollectible(collectible: CollectibleId)

  datatype Event = Event(kind: EventKind, subject: Subject, recipients: set<UserId>)

  datatype World = World(accounts: set<Party>, book: B.Book, vault: V.Vault, tasks: map<TaskId, Task>,
                         submissions: map<SubmissionId, Submission>, events: multiset<Event>)

  const EMPTY := World({}, B.Book([], map[]), V.Vault(map[], map[], map[]), map[], map[], multiset{})

  const SIGNUP_GRANT: CreditAmount := 100

  // ---- commands and replies ----

  /** A user reviewer (`permitted`: holds the review permission in the task's organization) or an organization credential. */
  datatype Reviewer = ByUser(user: UserId, permitted: bool) | ByOrganization(org: OrgId)

  datatype RewardSpec =
    | Unrewarded
    | Credits(amount: CreditAmount)
    | Collectibles(ids: seq<CollectibleId>)
    | Bundle(credits: CreditAmount, also: seq<CollectibleId>)

  datatype Transition = Opening | Cancelling | Unpublishing

  datatype Review = Review(reviewer: Reviewer, task: TaskId, submission: SubmissionId, key: Key, selection: B.Selection,
                           tip: Option<CreditAmount>, gift: Option<CollectibleId>, shared: bool, spendOk: bool, ban: bool)

  datatype Command =
    | OpenAccount(owner: Party)
    | SignupGrant(user: UserId)
    | OrganizationGrant(newOrg: OrgId, verified: bool)
    | Grant(target: Party, amount: CreditAmount, key: Key, audience: set<UserId>)
    | Fund(payer: Party, task: TaskId, amount: CreditAmount, key: Key, actor: UserId, spendOk: bool)
    | Accept(review: Review)
    | Reject(review: Review)
    | RequestChanges(review: Review)
    | Refund(requester: UserId, task: TaskId, key: Key, implementor: bool, told: set<UserId>)
    | Send(source: Party, dest: Party, amount: CreditAmount, key: Key, billing: bool, spendOk: bool, actor: UserId, audience: set<UserId>)
    | CreateTask(task: TaskId, creator: UserId, organization: Option<OrgId>, reward: RewardSpec)
    | ChangeState(task: TaskId, seen: TaskState, transition: Transition, told: set<UserId>)
    | Expire(task: TaskId, due: bool, told: set<UserId>)
    | Submit(submission: SubmissionId, task: TaskId, worker: UserId, valid: bool)
    | FundCollectible(funder: UserId, task: TaskId, collectible: CollectibleId)
    | RefundCollectible(requester: UserId, task: TaskId, implementor: bool)
    | Gift(collectible: CollectibleId, from: UserId, to: UserId, shared: bool)
    | AwardMember(collectible: CollectibleId, org: OrgId, to: UserId, member: bool)
    | Donate(collectible: CollectibleId, from: UserId, org: OrgId, member: bool)
    | HandOut(collectible: CollectibleId, org: OrgId, to: UserId, permitted: bool, told: set<UserId>)
    | MintCustom(collectible: CollectibleId, kind: V.Kind, policy: V.Policy, owner: Party, scope: Option<OrgId>)
    | AwardFromCatalog(collectible: CollectibleId, slug: V.Slug, owner: Party, scope: Option<OrgId>)
    | Withdraw(collectible: CollectibleId, told: set<UserId>)
    | Release(collectible: CollectibleId, told: set<UserId>)
    | Delete(collectible: CollectibleId)
    | AddEntry(slug: V.Slug, entry: V.CatalogEntry)
    | FlipEntry(slug: V.Slug, available: bool)
    | DeleteEntry(slug: V.Slug)

  datatype Payout =
    | NoPayout
    | CreditPayout(amount: CreditAmount)
    | CollectiblePayout(ids: set<CollectibleId>)
    | BundlePayout(credits: CreditAmount, also: set<CollectibleId>)

  datatype Tip = NoTip | CreditTip(amount: CreditAmount) | CollectibleTip(id: CollectibleId) | BundleTip(credits: CreditAmount, also: CollectibleId)

  datatype Reply =
    | Refused(reason: Reason)
    | Done
    | Moved(amount: int, replay: bool)
    | Funded(task: TaskId, funder: Party, amount: int, replay: bool)
    | Refunded(funder: Party, amount: int, replay: bool)
    | Reviewed(submission: SubmissionId, worker: UserId, payout: Payout, tip: Tip, replay: bool)

  type Tx = Outcome<(World, Reply)>

  function CombinePayouts(credit: Option<CreditAmount>, ids: set<CollectibleId>): Payout {
    if credit.Some? && ids != {} then BundlePayout(credit.value, ids)
    else if credit.Some? then CreditPayout(credit.value)
    else if ids != {} then CollectiblePayout(ids)
    else NoPayout
  }

  function CombineTips(credit: Option<CreditAmount>, id: Option<CollectibleId>): Tip {
    if credit.Some? && id.Some? then BundleTip(credit.value, id.value)
    else if credit.Some? then CreditTip(credit.value)
    else if id.Some? then CollectibleTip(id.value)
    else NoTip
  }

  // ---- accounts and grants ----

  function OpenAccountTx(w: World, owner: Party): Tx {
    if owner in w.accounts then Refuse(ConstraintViolated)
    else Ok((w.(accounts := w.accounts + {owner}), Done))
  }

  function SignupKey(user: UserId): Key {
    "signup_grant:" + Text(user)
  }

  /** First email verification grants the signup credits; a key already on the account makes it a no-op. */
  function SignupGrantTx(w: World, user: UserId): Tx {
    var account := User(user);
    if account !in w.accounts then Refuse(NoAccount)
    else if B.Find(w.book.entries, account, SignupKey(user)).Some? then Ok((w, Moved(SIGNUP_GRANT, true)))
    else
      var book :- B.Mint(w.book, B.SignupGrant, account, SIGNUP_GRANT, SignupKey(user));
      Ok((w.(book := book), Moved(SIGNUP_GRANT, false)))
  }

  function OrganizationGrantTx(w: World, org: OrgId, verified: bool): Tx {
    var account := Organization(org);
    if account in w.accounts then Refuse(ConstraintViolated)
    else if !verified then Ok((w.(accounts := w.accounts + {account}), Done))
    else
      var book :- B.Mint(w.book, B.SignupGrant, account, SIGNUP_GRANT, "org_grant:" + Text(org));
      Ok((w.(accounts := w.accounts + {account}, book := book), Done))
  }

  function GrantTx(w: World, target: Party, amount: CreditAmount, key: Key, audience: set<UserId>): Tx {
    if target !in w.accounts then Refuse(NoAccount)
    else
      var existing := B.Find(w.book.entries, target, key);
      if existing.Some? then
        if existing.value.kind.ManualAdjustment? && existing.value.amount == amount then Ok((w, Moved(amount, true)))
        else Refuse(KeyReused)
      else
        var book :- B.Mint(w.book, B.ManualAdjustment, target, amount, key);
        Ok((w.(book := book, events := w.events + multiset{Event(CreditGranted, NoSubject, audience)}), Moved(amount, false)))
  }

  function SendTx(w: World, c: Command): Tx
    requires c.Send?
  {
    if c.source == c.dest then Refuse(SelfTransfer)
    else if c.source.Organization? && !c.billing then Refuse(PermissionDenied)
    else if c.source !in w.accounts || c.dest !in w.accounts then Refuse(NoAccount)
    else
      var existing := B.Find(w.book.entries, c.source, c.key + ":send-debit");
      if existing.Some? then
        if existing.value.kind.PeerTransfer? && existing.value.amount == -(c.amount as int) then Ok((w, Moved(c.amount, true)))
        else Refuse(KeyReused)
      else if B.Balance(w.book, c.source) < c.amount then Refuse(InsufficientCredits)
      else if !c.spendOk then Refuse(SpendRefused)
      else
        var book :- B.Move(w.book, B.PeerTransfer, None, c.source, c.dest, c.amount, c.key + ":send-debit", c.key + ":send-credit");
        Ok((w.(book := book, events := w.events + multiset{Event(CreditsSent, NoSubject, {c.actor} + c.audience)}), Moved(c.amount, false)))
  }

  // ---- funding ----

  function FindFund(w: World, payer: Party, task: TaskId, key: Key): Option<Tx> {
    var existing := B.Find(w.book.entries, payer, key);
    if existing.None? then None
    else if !existing.value.kind.TaskFund? || existing.value.task != Some(task) then Some(Refuse(KeyReused))
    else Some(Ok((w, Funded(task, payer, -existing.value.amount, true))))
  }

  predicate Owns(t: Task, payer: Party) {
    match payer
    case User(id) => t.creator == id
    case Organization(org) => t.organization == Some(org)
    case Team(_) => false
  }

  /** A draft takes credits whatever its reward kind: a first funding declares them. */
  function Fundable(t: Task, amount: CreditAmount): Outcome<Task> {
    if !t.state.Draft? then Refuse(TaskNotDraft)
    else match t.reward
      case CreditReward | BundleReward => if t.declared != amount then Refuse(AmountMismatch) else Ok(t)
      case CollectibleReward => Ok(t.(reward := BundleReward, declared := amount))
      case NoReward => Ok(t.(reward := CreditReward, declared := amount))
  }

  function FundTx(w: World, payer: Party, task: TaskId, amount: CreditAmount, key: Key, actor: UserId, spendOk: bool): Tx {
    if payer !in w.accounts then Refuse(NoAccount)
    else
      var replay := FindFund(w, payer, task, key);
      if replay.Some? then replay.value
      else if task !in w.tasks then Refuse(TaskNotFound)
      else if !Owns(w.tasks[task], payer) then Refuse(NotTaskOwner)
      else
        var t :- Fundable(w.tasks[task], amount);
        if !spendOk then Refuse(SpendRefused)
        else
          var book :- B.Allocate(w.book, task, payer, amount, key);
          var event := Event(TaskFunded, OnTask(task), {actor, t.creator});
          Ok((w.(book := book, tasks := w.tasks[task := t], events := w.events + multiset{event}), Funded(task, payer, amount, false)))
  }

  // ---- review ----

  function LockForReview(w: World, task: TaskId, reviewer: Reviewer): Outcome<Task> {
    if task !in w.tasks then Refuse(TaskNotFound)
    else
      var t := w.tasks[task];
      var allowed := match reviewer
        case ByUser(u, permitted) => t.creator == u || (t.organization.Some? && permitted)
        case ByOrganization(org) => t.organization == Some(org);
      if allowed then Ok(t) else Refuse(NotReviewer)
  }

  function FindSubmission(w: World, r: Review): Outcome<Submission> {
    if r.submission in w.submissions && w.submissions[r.submission].task == r.task then Ok(w.submissions[r.submission])
    else Refuse(SubmissionNotFound)
  }

  function PayCreditTip(w: World, book: B.Book, r: Review, worker: UserId): Outcome<B.Book> {
    if r.tip.None? then Ok(book)
    else match r.reviewer
      case ByOrganization(_) => Refuse(OrganizationCannotPay)
      case ByUser(u, _) =>
        if User(u) !in w.accounts then Refuse(NoAccount)
        else if B.Balance(book, User(u)) < r.tip.value then Refuse(InsufficientCredits)
        else if User(worker) !in w.accounts then Refuse(NoAccount)
        else B.Move(book, B.TaskTip, Some(r.task), User(u), User(worker), r.tip.value, r.key + ":tip-debit", r.key + ":tip-credit")
  }

  function PayCollectibleTip(vault: V.Vault, r: Review, worker: UserId): Outcome<V.Vault> {
    if r.gift.None? then Ok(vault)
    else match r.reviewer
      case ByOrganization(_) => Refuse(OrganizationCannotPay)
      case ByUser(u, _) =>
        var (after, moved) :- V.Gift(vault, r.gift.value, u, worker, r.shared);
        Ok(after)
  }

  function Audience(r: Reviewer, worker: UserId): set<UserId> {
    match r
    case ByUser(u, _) => {u, worker}
    case ByOrganization(_) => {worker}
  }

  /** The review event, then payout and tip events where something moved. */
  function ReviewEvents(kind: EventKind, r: Review, worker: UserId, payout: Payout, tip: Tip): multiset<Event> {
    var to := Audience(r.reviewer, worker);
    var subject := OnSubmission(r.task, r.submission);
    multiset{Event(kind, subject, to)}
    + (if payout.NoPayout? then multiset{} else multiset{Event(PayoutReceived, subject, to)})
    + (if tip.NoTip? then multiset{} else multiset{Event(TipReceived, subject, to)})
  }

  /** The other submissions on the task still waiting for review. */
  function Competing(w: World, r: Review): set<SubmissionId> {
    set s | s in w.submissions && w.submissions[s].task == r.task && s != r.submission && w.submissions[s].state.Submitted?
  }

  function Supersede(subs: map<SubmissionId, Submission>, losers: set<SubmissionId>): map<SubmissionId, Submission> {
    map s | s in subs :: if s in losers then subs[s].(state := Superseded) else subs[s]
  }

  function SupersededEvents(w: World, r: Review): set<Event> {
    set s | s in Competing(w, r) :: Event(SubmissionSuperseded, OnSubmission(r.task, s), {w.submissions[s].worker})
  }

  predicate HasAccepted(w: World, task: TaskId) {
    exists s :: s in w.submissions && w.submissions[s].task == task && w.submissions[s].state.Accepted?
  }

  /** The credit payout the first accept recorded, rebuilt by task and key. */
  function FindPayout(entries: seq<B.Entry>, task: TaskId, key: Key): (r: Option<B.Entry>)
    ensures r.Some? ==> r.value in entries && r.value.kind.TaskPayout? && r.value.task == Some(task) && r.value.key == Some(key)
    ensures r.None? ==> forall e <- entries :: e.kind.TaskPayout? && e.task == Some(task) ==> e.key != Some(key)
  {
    if entries == [] then None
    else if entries[0].kind.TaskPayout? && entries[0].task == Some(task) && entries[0].key == Some(key) then Some(entries[0])
    else FindPayout(entries[1..], task, key)
  }

  function ReplayAccept(w: World, r: Review, worker: UserId): Tx {
    var found := FindPayout(w.book.entries, r.task, r.key);
    var payout := if found.Some? && found.value.amount > 0 then CreditPayout(found.value.amount) else NoPayout;
    Ok((w, Reviewed(r.submission, worker, payout, NoTip, true)))
  }

  /** Pays out what the task holds; a task that declared credits must pay something. */
  function PayReward(w: World, r: Review, t: Task, worker: UserId): Outcome<(B.Book, V.Vault, Payout)> {
    var (book, paid) :- B.PayReview(w.book, r.task, User(worker), User(worker) in w.accounts, r.selection, r.key, true);
    var payout := CombinePayouts(paid, V.HeldBy(w.vault, r.task));
    if payout.NoPayout? && (t.reward.CreditReward? || t.reward.BundleReward?) then Refuse(FundMissing)
    else Ok((book, V.Deliver(w.vault, r.task, worker), payout))
  }

  function PayTips(w: World, book: B.Book, vault: V.Vault, r: Review, worker: UserId): Outcome<(B.Book, V.Vault)> {
    if !r.spendOk then Refuse(SpendRefused)
    else
      var tipped :- PayCreditTip(w, book, r, worker);
      var gifted :- PayCollectibleTip(vault, r, worker);
      Ok((tipped, gifted))
  }

  /** A first accept: the task closes, its reward is paid out, tips follow, and the competition is superseded. */
  function FirstAccept(w: World, r: Review, t: Task, s: Submission): Tx {
    var (paidBook, delivered, payout) :- PayReward(w, r, t, s.worker);
    var (book, vault) :- PayTips(w, paidBook, delivered, r, s.worker);
    var tip := CombineTips(r.tip, r.gift);
    var accepted := w.submissions[r.submission := s.(state := Accepted, acceptKey := Some(r.key))];
    Ok((w.(book := book, vault := vault,
    tasks := w.tasks[r.task := t.(state := Closed)],
    submissions := Supersede(accepted, Competing(w, r)),
    events := w.events + ReviewEvents(SubmissionAccepted, r, s.worker, payout, tip) + multiset(SupersededEvents(w, r))),
    Reviewed(r.submission, s.worker, payout, tip, false)))
  }

  function AcceptTx(w: World, r: Review): Tx {
    var t :- LockForReview(w, r.task, r.reviewer);
    var s :- FindSubmission(w, r);
    if s.state.Accepted? then
      if s.acceptKey == Some(r.key) then ReplayAccept(w, r, s.worker) else Refuse(AcceptedWithOtherKey)
    else if !s.state.Submitted? then Refuse(SubmissionNotReviewable)
    else if !t.state.Open? then Refuse(TaskNotOpen)
    else if HasAccepted(w, r.task) then Refuse(AlreadyHasAccepted)
    else FirstAccept(w, r, t, s)
  }

  /** A first reject: the selected credits are paid, the rest stays allocated, the task stays open. */
  function FirstReject(w: World, r: Review, s: Submission): Tx {
    var (paidBook, paid) :- B.PayReview(w.book, r.task, User(s.worker), User(s.worker) in w.accounts, r.selection, r.key, false);
    if !r.spendOk then Refuse(SpendRefused)
    else
      var book :- PayCreditTip(w, paidBook, r, s.worker);
      if r.ban && r.reviewer.ByOrganization? then Refuse(OrganizationCannotPay)
      else
        var payout := CombinePayouts(paid, {});
        var tip := CombineTips(r.tip, None);
        Ok((w.(book := book,
        submissions := w.submissions[r.submission := s.(state := Rejected, rejectKey := Some(r.key))],
        events := w.events + ReviewEvents(SubmissionRejected, r, s.worker, payout, tip)),
        Reviewed(r.submission, s.worker, payout, tip, false)))
  }

  function RejectTx(w: World, r: Review): Tx {
    var t :- LockForReview(w, r.task, r.reviewer);
    if !t.state.Open? then Refuse(TaskNotOpen)
    else
      var s :- FindSubmission(w, r);
      if s.state.Rejected? then
        if s.rejectKey == Some(r.key) then Ok((w, Reviewed(r.submission, s.worker, NoPayout, NoTip, true))) else Refuse(RejectedWithOtherKey)
      else if !s.state.Submitted? then Refuse(SubmissionNotReviewable)
      else FirstReject(w, r, s)
  }

  function RequestChangesTx(w: World, r: Review): Tx {
    var t :- LockForReview(w, r.task, r.reviewer);
    if !t.state.Open? then Refuse(TaskNotOpen)
    else
      var s :- FindSubmission(w, r);
      if s.state.ChangesRequested? then
        if s.changesKey == Some(r.key) then Ok((w, Reviewed(r.submission, s.worker, NoPayout, NoTip, true))) else Refuse(ChangesWithOtherKey)
      else if !s.state.Submitted? then Refuse(SubmissionNotReviewable)
      else Ok((w.(
        submissions := w.submissions[r.submission := s.(state := ChangesRequested, changesKey := Some(r.key))],
        events := w.events + ReviewEvents(SubmissionChangesRequested, r, s.worker, NoPayout, NoTip)),
        Reviewed(r.submission, s.worker, NoPayout, NoTip, false)))
  }

  // ---- refunds and task state ----

  function LockRefundable(w: World, task: TaskId, requester: UserId, implementor: bool): Outcome<Task> {
    if task !in w.tasks then Refuse(TaskNotFound)
    else if w.tasks[task].creator != requester && !implementor then Refuse(PermissionDenied)
    else if !w.tasks[task].state.Draft? && !w.tasks[task].state.Open? then Refuse(TaskNotRefundable)
    else Ok(w.tasks[task])
  }

  predicate KeyOnTask(entries: seq<B.Entry>, task: TaskId, key: Key) {
    exists e :: e in entries && e.task == Some(task) && e.key == Some(key)
  }

  function FindRefund(entries: seq<B.Entry>, task: TaskId, key: Key): Option<B.Entry> {
    if entries == [] then None
    else if entries[0].kind.TaskRefund? && entries[0].task == Some(task) && entries[0].key == Some(key) then Some(entries[0])
    else FindRefund(entries[1..], task, key)
  }

  function ReplayOrRejectRefund(w: World, task: TaskId, key: Key): Tx {
    var found := FindRefund(w.book.entries, task, key);
    if !KeyOnTask(w.book.entries, task, key) then Refuse(NothingToRefund)
    else if found.None? then Refuse(KeyReused)
    else Ok((w, Refunded(found.value.account, found.value.amount, true)))
  }

  function RefundTx(w: World, requester: UserId, task: TaskId, key: Key, implementor: bool, told: set<UserId>): Tx {
    var t :- LockRefundable(w, task, requester, implementor);
    if task !in w.book.funds then ReplayOrRejectRefund(w, task, key)
    else
      var fund := w.book.funds[task];
      if KeyOnTask(w.book.entries, task, key) || B.Find(w.book.entries, fund.funder, key).Some? then Refuse(KeyReused)
      else
        var book :- B.Return(w.book, task, Some(key));
        Ok((w.(book := book, vault := V.GiveBack(w.vault, task), tasks := w.tasks[task := t.(state := Cancelled)],
        events := w.events + multiset{Event(TaskCancelled, OnTask(task), {requester} + told)}),
        Refunded(fund.funder, fund.amount, false)))
  }

  function RefundCollectibleTx(w: World, requester: UserId, task: TaskId, implementor: bool): Tx {
    var t :- LockRefundable(w, task, requester, implementor);
    if t.reward.BundleReward? then Refuse(BundleRefundedTogether)
    else if V.HeldBy(w.vault, task) == {} then Refuse(NothingToRefund)
    else Ok((w.(vault := V.GiveBack(w.vault, task), tasks := w.tasks[task := t.(state := Cancelled)]), Done))
  }

  function CreateTaskTx(w: World, task: TaskId, creator: UserId, organization: Option<OrgId>, reward: RewardSpec): Tx {
    if task in w.tasks then Refuse(ConstraintViolated)
    else
      var (kind, declared, ids) := match reward
        case Unrewarded => (NoReward, 0, [])
        case Credits(n) => (CreditReward, n as int, [])
        case Collectibles(ids) => (CollectibleReward, 0, ids)
        case Bundle(n, ids) => (BundleReward, n as int, ids);
      var vault :- V.EscrowAll(w.vault, ids, creator, task);
      Ok((w.(vault := vault, tasks := w.tasks[task := Task(Draft, creator, organization, kind, declared)]), Done))
  }

  function TransitionTarget(seen: TaskState, transition: Transition): Outcome<TaskState> {
    match transition
    case Opening => if seen.Draft? then Ok(Open) else Refuse(BadTransition)
    case Cancelling => if seen.Draft? || seen.Open? then Ok(Cancelled) else Refuse(BadTransition)
    case Unpublishing => if seen.Open? then Ok(Draft) else Refuse(BadTransition)
  }

  predicate Openable(w: World, task: TaskId)
    requires task in w.tasks
  {
    var t := w.tasks[task];
    && (t.reward.CreditReward? || t.reward.BundleReward? ==> task in w.book.funds && w.book.funds[task].amount == t.declared)
    && (t.reward.CollectibleReward? || t.reward.BundleReward? ==> V.HeldBy(w.vault, task) != {})
  }

  /**
   The service validates the transition against the state it saw in an earlier,
   unlocked read; the store's transaction then writes the target whatever the
   state has become meanwhile.
   */
  function ChangeStateTx(w: World, task: TaskId, seen: TaskState, transition: Transition, told: set<UserId>): Tx {
    var target :- TransitionTarget(seen, transition);
    if task !in w.tasks then Refuse(TaskNotFound)
    else if target.Open? && !Openable(w, task) then Refuse(RewardNotFunded)
    else
      var t := w.tasks[task];
      var book :- if target.Cancelled? then B.Return(w.book, task, None) else Ok(w.book);
      var vault := if target.Cancelled? then V.GiveBack(w.vault, task) else w.vault;
      var events := match target
        case Open => multiset{Event(TaskOpened, OnTask(task), {t.creator} + told)}
        case Cancelled => multiset{Event(TaskCancelled, OnTask(task), {t.creator} + told)}
        case _ => multiset{};
      Ok((w.(book := book, vault := vault, tasks := w.tasks[task := t.(state := target)], events := w.events + events), Done))
  }

  function ExpireTx(w: World, task: TaskId, due: bool, told: set<UserId>): Tx {
    if task !in w.tasks || !due || !w.tasks[task].state.Open? then Refuse(BadTransition)
    else
      var t := w.tasks[task];
      var book :- B.Return(w.book, task, Some("expire:" + Text(task)));
      Ok((w.(book := book, vault := V.GiveBack(w.vault, task), tasks := w.tasks[task := t.(state := Expired)],
      events := w.events + multiset{Event(TaskExpired, OnTask(task), {t.creator} + told)}), Done))
  }

  /** The insert itself does not look at the task's state; eligibility was checked before it. */
  function SubmitTx(w: World, submission: SubmissionId, task: TaskId, worker: UserId, valid: bool): Tx {
    if task !in w.tasks || submission in w.submissions then Refuse(ConstraintViolated)
    else Ok((w.(submissions := w.submissions[submission := Submission(task, worker, if valid then Submitted else Invalid, None, None, None)],
      events := w.events + multiset{Event(SubmissionCreated, OnSubmission(task, submission), {w.tasks[task].creator, worker})}), Done))
  }

  function FundCollectibleTx(w: World, funder: UserId, task: TaskId, collectible: CollectibleId): Tx {
    var problem := V.EscrowProblem(w.vault, collectible, funder);
    if problem.Some? then Refuse(problem.value)
    else if task !in w.tasks then Refuse(TaskNotFound)
    else if w.tasks[task].creator != funder then Refuse(NotTaskOwner)
    else if !w.tasks[task].state.Draft? then Refuse(TaskNotDraft)
    else
      var vault :- V.Escrow(w.vault, collectible, funder, task);
      var t := w.tasks[task];
      var reward := match t.reward case NoReward => CollectibleReward case CreditReward => BundleReward case other => other;
      Ok((w.(vault := vault, tasks := w.tasks[task := t.(reward := reward)]), Done))
  }

  // ---- collectibles ----

  function Told(w: World, vault: V.Vault, kind: EventKind, id: CollectibleId, to: set<UserId>): Tx {
    Ok((w.(vault := vault, events := w.events + multiset{Event(kind, OnCollectible(id), to)}), Done))
  }

  function Holder(v: V.Vault, id: CollectibleId): set<UserId> {
    if id in v.items && v.items[id].owner.User? then {v.items[id].owner.id} else {}
  }

  function CollectibleTx(w: World, c: Command): Tx {
    match c
    case Gift(id, from, to, shared) =>
      var (vault, moved) :- V.Gift(w.vault, id, from, to, shared);
      if moved then Told(w, vault, CollectibleMoved, id, {from, to}) else Ok((w, Done))
    case AwardMember(id, org, to, member) =>
      var vault :- V.AwardMember(w.vault, id, org, to, member);
      Told(w, vault, CollectibleMoved, id, {to})
    case Donate(id, from, org, member) =>
      var vault :- V.Donate(w.vault, id, from, org, member);
      Told(w, vault, CollectibleMoved, id, {from})
    case HandOut(id, org, to, permitted, told) =>
      var vault :- V.HandOut(w.vault, id, org, to, permitted);
      Told(w, vault, CollectibleMoved, id, {to} + told)
    case MintCustom(id, kind, policy, owner, scope) =>
      var vault :- V.MintCustom(w.vault, id, kind, policy, owner, scope);
      Ok((w.(vault := vault), Done))
    case AwardFromCatalog(id, slug, owner, scope) =>
      var vault :- V.Award(w.vault, id, slug, owner, scope);
      Ok((w.(vault := vault), Done))
    case Withdraw(id, told) =>
      var vault :- V.Withdraw(w.vault, id);
      Told(w, vault, CollectibleWithdrawn, id, Holder(w.vault, id) + told)
    case Release(id, told) =>
      var vault :- V.Release(w.vault, id);
      Told(w, vault, CollectibleReleased, id, Holder(w.vault, id) + told)
    case Delete(id) =>
      var vault :- V.Delete(w.vault, id);
      Ok((w.(vault := vault), Done))
    case AddEntry(slug, entry) =>
      var vault :- V.AddEntry(w.vault, slug, entry);
      Ok((w.(vault := vault), Done))
    case FlipEntry(slug, available) =>
      var vault :- V.FlipEntry(w.vault, slug, available);
      Ok((w.(vault := vault), Done))
    case DeleteEntry(slug) =>
      var vault :- V.DeleteEntry(w.vault, slug);
      Ok((w.(vault := vault), Done))
    case _ => Ok((w, Done))
  }

  // ---- runs ----

  function Transact(w: World, c: Command): Tx {
    match c
    case OpenAccount(owner) => OpenAccountTx(w, owner)
    case SignupGrant(user) => SignupGrantTx(w, user)
    case OrganizationGrant(org, verified) => OrganizationGrantTx(w, org, verified)
    case Grant(target, amount, key, audience) => GrantTx(w, target, amount, key, audience)
    case Send(_, _, _, _, _, _, _, _) => SendTx(w, c)
    case Fund(payer, task, amount, key, actor, spendOk) => FundTx(w, payer, task, amount, key, actor, spendOk)
    case Accept(r) => AcceptTx(w, r)
    case Reject(r) => RejectTx(w, r)
    case RequestChanges(r) => RequestChangesTx(w, r)
    case Refund(requester, task, key, implementor, told) => RefundTx(w, requester, task, key, implementor, told)
    case RefundCollectible(requester, task, implementor) => RefundCollectibleTx(w, requester, task, implementor)
    case CreateTask(task, creator, organization, reward) => CreateTaskTx(w, task, creator, organization, reward)
    case ChangeState(task, seen, transition, told) => ChangeStateTx(w, task, seen, transition, told)
    case Expire(task, due, told) => ExpireTx(w, task, due, told)
    case Submit(submission, task, worker, valid) => SubmitTx(w, submission, task, worker, valid)
    case FundCollectible(funder, task, collectible) => FundCollectibleTx(w, funder, task, collectible)
    case _ => CollectibleTx(w, c)
  }

  /** A refused transaction rolls back. */
  function Step(w: World, c: Command): (World, Reply) {
    match Transact(w, c)
    case Ok(done) => done
    case Refuse(reason) => (w, Refused(reason))
  }

  function Run(w: World, commands: seq<Command>): World {
    if commands == [] then w
    else Step(Run(w, commands[..|commands| - 1]), commands[|commands| - 1]).0
  }

  /** What the i-th command of a run is answered. */
  function ReplyAt(w: World, commands: seq<Command>, i: nat): Reply
    requires i < |commands|
  {
    Step(Run(w, commands[..i]), commands[i]).1
  }
}
