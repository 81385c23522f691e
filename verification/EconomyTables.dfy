/**
 What the tables hold after a command: the entries it appends, the fund rows,
 tasks, submissions, collectibles and holds, the events it records and the reply
 it gives, stated on rows and columns alone for each of the 28 commands.
 */
module EconomyTables {
  import opened Prelude
  import opened Economy
  import opened EconomyInvariant
  import opened EconomyTheorems
  import opened EconomyRules
  import B = Book
  import V = Vault

  // ---- the rules, table by table ----

  /** The command was carried out before, under the same key where it has one. */
  ghost predicate Repeats(w: World, c: Command) {
    if KeySlot(c).Some? then SlotUsed(w, c)
    else match c
      case Accept(r) => r.submission in w.submissions && w.submissions[r.submission].state == Accepted
      case Reject(r) => r.submission in w.submissions && w.submissions[r.submission].state == Rejected
      case RequestChanges(r) => r.submission in w.submissions && w.submissions[r.submission].state == ChangesRequested
      case Refund(_, task, _, _, _) => task !in w.book.funds
      case _ => false
  }

  /** A task whose credits and collectibles go back to who put them up. */
  predicate Settles(c: Command) {
    c.Refund? || c.Expire? || (c.ChangeState? && c.transition == Cancelling)
  }

  /** A refund is recorded under its own key, an expiry under the task's, a cancellation under none. */
  function RefundKey(c: Command): Option<Key> {
    match c
    case Refund(_, _, key, _, _) => Some(key)
    case Expire(task, _, _) => Some("expire:" + Text(task))
    case _ => None
  }

  function AccountsAfter(w: World, c: Command): set<Party> {
    match c
    case OpenAccount(owner) => w.accounts + {owner}
    case OrganizationGrant(org, _) => w.accounts + {Organization(org)}
    case _ => w.accounts
  }

  /** Every row a command appends to the ledger: account, kind, amount, task and key. */
  function EntriesAdded(w: World, c: Command): seq<B.Entry> {
    match c
    case SignupGrant(user) => [B.Entry(User(user), B.SignupGrant, 100, None, Some("signup_grant:" + Text(user)))]
    case OrganizationGrant(org, verified) => if verified then [B.Entry(Organization(org), B.SignupGrant, 100, None, Some("org_grant:" + Text(org)))] else []
    case Grant(target, amount, key, _) => [B.Entry(target, B.ManualAdjustment, amount, None, Some(key))]
    case Fund(payer, task, amount, key, _, _) => [B.Entry(payer, B.TaskFund, -(amount as int), Some(task), Some(key))]
    case Send(source, dest, amount, key, _, _, _, _) =>
      [B.Entry(source, B.PeerTransfer, -(amount as int), None, Some(key + ":send-debit")), B.Entry(dest, B.PeerTransfer, amount, None, Some(key + ":send-credit"))]
    case Accept(r) => if r.submission in w.submissions && (r.tip.Some? ==> r.reviewer.ByUser?) then PayoutEntries(w, r, true) + TipEntries(w, r) else []
    case Reject(r) => if r.submission in w.submissions && (r.tip.Some? ==> r.reviewer.ByUser?) then PayoutEntries(w, r, false) + TipEntries(w, r) else []
    case _ =>
      if Settles(c) && c.task in w.book.funds then
        [B.Entry(w.book.funds[c.task].funder, B.TaskRefund, w.book.funds[c.task].amount, Some(c.task), RefundKey(c))]
      else []
  }

  function FundsAfter(w: World, c: Command): map<TaskId, B.Fund> {
    match c
    case Fund(payer, task, amount, _, _, _) => w.book.funds[task := B.Fund(payer, amount)]
    case Accept(r) => FundsAfterPayout(w, r, true)
    case Reject(r) => FundsAfterPayout(w, r, false)
    case _ => if Settles(c) then w.book.funds - {c.task} else w.book.funds
  }

  function TasksAfter(w: World, c: Command): map<TaskId, Task> {
    match c
    case CreateTask(task, creator, organization, reward) =>
      w.tasks[task := match reward
        case Unrewarded => Task(Draft, creator, organization, NoReward, 0)
        case Credits(n) => Task(Draft, creator, organization, CreditReward, n)
        case Collectibles(_) => Task(Draft, creator, organization, CollectibleReward, 0)
        case Bundle(n, _) => Task(Draft, creator, organization, BundleReward, n)]
    case Fund(_, task, amount, _, _, _) =>
      if task !in w.tasks then w.tasks
      else
        var t := w.tasks[task];
        w.tasks[task := t.(reward := if t.reward in {CollectibleReward, BundleReward} then BundleReward else CreditReward, declared := amount)]
    case FundCollectible(_, task, _) =>
      if task !in w.tasks then w.tasks
      else
        var t := w.tasks[task];
        w.tasks[task := t.(reward := if t.reward in {CreditReward, BundleReward} then BundleReward else CollectibleReward)]
    case Accept(r) => if r.task in w.tasks then w.tasks[r.task := w.tasks[r.task].(state := Closed)] else w.tasks
    case RefundCollectible(_, task, _) => if task in w.tasks then w.tasks[task := w.tasks[task].(state := Cancelled)] else w.tasks
    case ChangeState(task, _, t, _) =>
      if task in w.tasks then
        w.tasks[task := w.tasks[task].(state := match t case Opening => Open case Cancelling => Cancelled case Unpublishing => Draft)]
      else w.tasks
    case _ =>
      if Settles(c) && c.task in w.tasks then w.tasks[c.task := w.tasks[c.task].(state := if c.Expire? then Expired else Cancelled)] else w.tasks
  }

  function SubmissionsAfter(w: World, c: Command): map<SubmissionId, Submission> {
    match c
    case Submit(submission, task, worker, valid) =>
      w.submissions[submission := Submission(task, worker, if valid then Submitted else Invalid, None, None, None)]
    case Accept(r) =>
      map s | s in w.submissions ::
        if s == r.submission then w.submissions[s].(state := Accepted, acceptKey := Some(r.key))
        else if w.submissions[s].task == r.task && w.submissions[s].state == Submitted then w.submissions[s].(state := Superseded)
        else w.submissions[s]
    case Reject(r) =>
      if r.submission in w.submissions then w.submissions[r.submission := w.submissions[r.submission].(state := Rejected, rejectKey := Some(r.key))]
      else w.submissions
    case RequestChanges(r) =>
      if r.submission in w.submissions then w.submissions[r.submission := w.submissions[r.submission].(state := ChangesRequested, changesKey := Some(r.key))]
      else w.submissions
    case _ => w.submissions
  }

  /** One collectible is as given, all others, the holds and the catalog are as before. */
  predicate OnlyItem(w: World, v: V.Vault, id: CollectibleId, item: V.Collectible) {
    v == w.vault.(items := w.vault.items[id := item])
  }

  /** The holds of a task are gone, and what it held is free again, the worker's if there is one. */
  ghost predicate Freed(w: World, v: V.Vault, task: TaskId, worker: Option<UserId>, gift: Option<CollectibleId>) {
    && v.catalog == w.vault.catalog
    && v.held == (map i | i in w.vault.held && w.vault.held[i] != task :: w.vault.held[i])
    && v.items == map i | i in w.vault.items ::
         if HeldFor(w, i, task) then
           (if worker.Some? then w.vault.items[i].(state := V.Minted, owner := User(worker.value)) else w.vault.items[i].(state := V.Minted))
         else if gift == Some(i) && worker.Some? then w.vault.items[i].(owner := User(worker.value))
         else w.vault.items[i]
  }

  ghost predicate Escrows(w: World, v: V.Vault, ids: seq<CollectibleId>, task: TaskId) {
    && v.catalog == w.vault.catalog
    && v.items == (map i | i in w.vault.items :: if i in ids then w.vault.items[i].(state := V.Escrowed) else w.vault.items[i])
    && (forall i :: i in v.held <==> i in w.vault.held || i in ids)
    && (forall i <- v.held :: v.held[i] == if i in ids then task else w.vault.held[i])
  }

  /** An award takes kind and policy from its entry, and an edition the number after the largest in use. */
  ghost predicate Awarded(w: World, i: V.Collectible, slug: V.Slug, owner: Party, scope: Option<OrgId>) {
    && slug in w.vault.catalog
    && i.kind == w.vault.catalog[slug].kind && i.policy == w.vault.catalog[slug].policy && i.state == V.Minted
    && i.owner == owner && i.scope == scope && i.catalog == Some(slug)
    && (i.edition.Some? <==> i.kind == V.Edition)
    && (i.edition.Some? ==>
          && i.edition.value > 0
          && (forall j :: FromEntry(w, j, slug) && w.vault.items[j].edition.Some? ==> w.vault.items[j].edition.value < i.edition.value)
          && (i.edition.value > 1 ==> exists j :: FromEntry(w, j, slug) && w.vault.items[j].edition == Some((i.edition.value - 1) as nat)))
  }

  ghost predicate VaultAfter(w: World, c: Command, v: V.Vault) {
    match c
    case Accept(r) => r.submission in w.submissions && Freed(w, v, r.task, Some(Worker(w, r)), r.gift)
    case RefundCollectible(_, task, _) => Freed(w, v, task, None, None)
    case CreateTask(task, _, _, reward) => Escrows(w, v, Offered(reward), task)
    case FundCollectible(_, task, i) => Escrows(w, v, [i], task)
    case Gift(id, _, to, _) => id in w.vault.items && OnlyItem(w, v, id, w.vault.items[id].(owner := User(to)))
    case AwardMember(id, _, to, _) => id in w.vault.items && OnlyItem(w, v, id, w.vault.items[id].(owner := User(to), scope := None))
    case Donate(id, _, org, _) => id in w.vault.items && OnlyItem(w, v, id, w.vault.items[id].(owner := Organization(org), scope := Some(org)))
    case HandOut(id, _, to, _, _) => id in w.vault.items && OnlyItem(w, v, id, w.vault.items[id].(owner := User(to), scope := None))
    case MintCustom(id, kind, policy, owner, scope) => OnlyItem(w, v, id, V.Collectible(kind, V.Minted, policy, owner, scope, None, None))
    case AwardFromCatalog(id, slug, owner, scope) => id in v.items && Awarded(w, v.items[id], slug, owner, scope) && OnlyItem(w, v, id, v.items[id])
    case Withdraw(id, _) => id in w.vault.items && OnlyItem(w, v, id, w.vault.items[id].(state := V.Withdrawn))
    case Release(id, _) => id in w.vault.items && OnlyItem(w, v, id, w.vault.items[id].(state := V.Minted))
    case Delete(id) => v == w.vault.(items := w.vault.items - {id})
    case AddEntry(slug, e) => v == w.vault.(catalog := w.vault.catalog[slug := e])
    case FlipEntry(slug, available) => slug in w.vault.catalog && v == w.vault.(catalog := w.vault.catalog[slug := w.vault.catalog[slug].(available := available)])
    case DeleteEntry(slug) => v == w.vault.(catalog := w.vault.catalog - {slug})
    case _ => if Settles(c) then Freed(w, v, c.task, None, None) else v == w.vault
  }

  /** Whom an event about a review reaches: the worker, and the reviewer if it is a person. */
  function Told(w: World, r: Review): set<UserId>
    requires r.submission in w.submissions
  {
    if r.reviewer.ByUser? then {r.reviewer.user, Worker(w, r)} else {Worker(w, r)}
  }

  ghost function ReviewAnnounced(w: World, r: Review, kind: EventKind, paid: bool, tipped: bool): multiset<Event>
    requires r.submission in w.submissions
  {
    var about := OnSubmission(r.task, r.submission);
    multiset{Event(kind, about, Told(w, r))}
    + (if paid then multiset{Event(PayoutReceived, about, Told(w, r))} else multiset{})
    + (if tipped then multiset{Event(TipReceived, about, Told(w, r))} else multiset{})
  }

  /** Those told besides whom the command names: the task's creator and the user whose collectible it is. */
  function Creator(w: World, task: TaskId): set<UserId> {
    if task in w.tasks then {w.tasks[task].creator} else {}
  }

  function OwnerOf(w: World, id: CollectibleId): set<UserId> {
    if id in w.vault.items && w.vault.items[id].owner.User? then {w.vault.items[id].owner.id} else {}
  }

  /** Every event a command records, with its subject and recipients. */
  ghost function EventsAdded(w: World, c: Command): multiset<Event> {
    match c
    case Grant(_, _, _, audience) => multiset{Event(CreditGranted, NoSubject, audience)}
    case Send(_, _, _, _, _, _, actor, audience) => multiset{Event(CreditsSent, NoSubject, audience + {actor})}
    case Fund(_, task, _, _, actor, _) => multiset{Event(TaskFunded, OnTask(task), Creator(w, task) + {actor})}
    case Accept(r) =>
      if r.submission !in w.submissions then multiset{}
      else
        ReviewAnnounced(w, r, SubmissionAccepted, Pays(w, r) > 0 || HoldsSome(w, r.task), r.tip.Some? || r.gift.Some?)
        + multiset(set s | s in w.submissions && s != r.submission && w.submissions[s].task == r.task && w.submissions[s].state == Submitted ::
                     Event(SubmissionSuperseded, OnSubmission(r.task, s), {w.submissions[s].worker}))
    case Reject(r) => if r.submission in w.submissions then ReviewAnnounced(w, r, SubmissionRejected, Pays(w, r) > 0, r.tip.Some?) else multiset{}
    case RequestChanges(r) => if r.submission in w.submissions then ReviewAnnounced(w, r, SubmissionChangesRequested, false, false) else multiset{}
    case Refund(requester, task, _, _, told) => multiset{Event(TaskCancelled, OnTask(task), told + {requester})}
    case ChangeState(task, _, t, told) =>
      (match t
       case Opening => multiset{Event(TaskOpened, OnTask(task), told + Creator(w, task))}
       case Cancelling => multiset{Event(TaskCancelled, OnTask(task), told + Creator(w, task))}
       case Unpublishing => multiset{})
    case Expire(task, _, told) => multiset{Event(TaskExpired, OnTask(task), told + Creator(w, task))}
    case Submit(submission, task, worker, _) => multiset{Event(SubmissionCreated, OnSubmission(task, submission), Creator(w, task) + {worker})}
    case Gift(id, from, to, _) =>
      if id in w.vault.items && w.vault.items[id].owner != User(to) then multiset{Event(CollectibleMoved, OnCollectible(id), {from, to})} else multiset{}
    case AwardMember(id, _, to, _) => multiset{Event(CollectibleMoved, OnCollectible(id), {to})}
    case Donate(id, from, _, _) => multiset{Event(CollectibleMoved, OnCollectible(id), {from})}
    case HandOut(id, _, to, _, told) => multiset{Event(CollectibleMoved, OnCollectible(id), told + {to})}
    case Withdraw(id, told) => multiset{Event(CollectibleWithdrawn, OnCollectible(id), told + OwnerOf(w, id))}
    case Release(id, told) => multiset{Event(CollectibleReleased, OnCollectible(id), told + OwnerOf(w, id))}
    case _ => multiset{}
  }

  /** What a first review reports: who worked, what was paid out, and what was tipped. */
  ghost predicate Reports(w: World, r: Review, closing: bool, reply: Reply)
    requires r.submission in w.submissions
  {
    && reply.Reviewed? && reply.submission == r.submission && reply.worker == Worker(w, r) && !reply.replay
    && (match reply.payout
        case NoPayout => Pays(w, r) <= 0 && !(closing && HoldsSome(w, r.task))
        case CreditPayout(n) => n == Pays(w, r) && !(closing && HoldsSome(w, r.task))
        case CollectiblePayout(ids) => Pays(w, r) <= 0 && closing && ids != {} && forall i :: i in ids <==> HeldFor(w, i, r.task)
        case BundlePayout(n, ids) => n == Pays(w, r) && closing && ids != {} && forall i :: i in ids <==> HeldFor(w, i, r.task))
    && (match reply.tip
        case NoTip => r.tip.None? && !(closing && r.gift.Some?)
        case CreditTip(n) => r.tip == Some(n) && !(closing && r.gift.Some?)
        case CollectibleTip(id) => r.tip.None? && closing && r.gift == Some(id)
        case BundleTip(n, id) => r.tip == Some(n) && closing && r.gift == Some(id))
  }

  ghost predicate ReplyIs(w: World, c: Command, reply: Reply) {
    match c
    case SignupGrant(_) => reply == Moved(100, false)
    case Grant(_, amount, _, _) => reply == Moved(amount, false)
    case Send(_, _, amount, _, _, _, _, _) => reply == Moved(amount, false)
    case Fund(payer, task, amount, _, _, _) => reply == Funded(task, payer, amount, false)
    case Refund(_, task, _, _, _) => task in w.book.funds && reply == Refunded(w.book.funds[task].funder, w.book.funds[task].amount, false)
    case Accept(r) => r.submission in w.submissions && Reports(w, r, true, reply)
    case Reject(r) => r.submission in w.submissions && Reports(w, r, false, reply)
    case RequestChanges(r) => r.submission in w.submissions && reply == Reviewed(r.submission, Worker(w, r), NoPayout, NoTip, false)
    case _ => reply == Done
  }

  ghost predicate Obeys(w: World, c: Command, w': World, reply: Reply) {
    && w'.accounts == AccountsAfter(w, c)
    && w'.book == B.Book(w.book.entries + EntriesAdded(w, c), FundsAfter(w, c))
    && w'.tasks == TasksAfter(w, c)
    && w'.submissions == SubmissionsAfter(w, c)
    && VaultAfter(w, c, w'.vault)
    && w'.events == w.events + EventsAdded(w, c)
    && ReplyIs(w, c, reply)
  }

  lemma AccountObeys(w: World, c: Command)
    requires (c.OrganizationGrant? || c.OpenAccount?) && Transact(w, c).Ok?
    ensures Obeys(w, c, Transact(w, c).value.0, Transact(w, c).value.1)
  {
    hide B.Find;
    assert w.book.entries + [] == w.book.entries && w.events + multiset{} == w.events;
  }

  lemma GrantObeys(w: World, c: Command)
    requires WorldInv(w) && (c.SignupGrant? || c.Grant?) && Transact(w, c).Ok? && !Repeats(w, c)
    ensures Obeys(w, c, Transact(w, c).value.0, Transact(w, c).value.1)
  {
    UniqueKeys(w);
    hide WorldInv, B.Find, Used;
    FindIs(w, KeySlot(c).value.0, KeySlot(c).value.1);
    assert w.events + multiset{} == w.events;
  }

  lemma FundObeys(w: World, c: Command)
    requires WorldInv(w) && c.Fund? && Transact(w, c).Ok? && !Repeats(w, c)
    ensures Obeys(w, c, Transact(w, c).value.0, Transact(w, c).value.1)
  {
    UniqueKeys(w);
    hide WorldInv, B.Balance;
    FindIs(w, c.payer, c.key);
    assert {c.actor, w.tasks[c.task].creator} == Creator(w, c.task) + {c.actor};
  }

  lemma SendMoves(w: World, c: Command)
    requires c.Send?
    ensures var moved := B.Move(w.book, B.PeerTransfer, None, c.source, c.dest, c.amount, c.key + ":send-debit", c.key + ":send-credit");
      moved.Ok? ==> moved.value == B.Book(w.book.entries + EntriesAdded(w, c), w.book.funds)
  {
    hide B.Balance, B.Find;
    var (a, b) := (EntriesAdded(w, c)[0], EntriesAdded(w, c)[1]);
    assert w.book.entries + [a] + [b] == w.book.entries + [a, b];
  }

  lemma SendObeys(w: World, c: Command)
    requires WorldInv(w) && c.Send? && Transact(w, c).Ok? && !Repeats(w, c)
    ensures Obeys(w, c, Transact(w, c).value.0, Transact(w, c).value.1)
  {
    hide WorldInv, B.Balance, B.Move, EntriesAdded, Used;
    UniqueKeys(w);
    FindIs(w, c.source, c.key + ":send-debit");
    SendMoves(w, c);
    assert {c.actor} + c.audience == c.audience + {c.actor};
  }

  lemma GivingBackFrees(w: World, task: TaskId)
    ensures Freed(w, V.GiveBack(w.vault, task), task, None, None)
  {
  }

  lemma RefundObeys(w: World, c: Command)
    requires c.Refund? && Transact(w, c).Ok? && !Repeats(w, c)
    ensures Obeys(w, c, Transact(w, c).value.0, Transact(w, c).value.1)
  {
    hide B.Find, Freed, V.GiveBack;
    GivingBackFrees(w, c.task);
    assert {c.requester} + c.told == c.told + {c.requester};
  }

  lemma RefundCollectibleObeys(w: World, c: Command)
    requires c.RefundCollectible? && Transact(w, c).Ok?
    ensures Obeys(w, c, Transact(w, c).value.0, Transact(w, c).value.1)
  {
    hide B.Find, Freed, V.GiveBack;
    GivingBackFrees(w, c.task);
    assert w.book.entries + [] == w.book.entries;
  }

  lemma ReturnDone(w: World, task: TaskId, key: Option<Key>)
    requires B.Return(w.book, task, key).Ok?
    ensures B.Return(w.book, task, key).value
         == B.Book(w.book.entries + if task in w.book.funds then [B.Entry(w.book.funds[task].funder, B.TaskRefund, w.book.funds[task].amount, Some(task), key)] else [],
                   w.book.funds - {task})
  {
    if task !in w.book.funds {
      assert w.book.entries + [] == w.book.entries && w.book.funds - {task} == w.book.funds;
    }
  }

  lemma ExpireObeys(w: World, c: Command)
    requires c.Expire? && Transact(w, c).Ok?
    ensures Obeys(w, c, Transact(w, c).value.0, Transact(w, c).value.1)
  {
    hide B.Find, Freed, V.GiveBack, B.Return;
    GivingBackFrees(w, c.task);
    ReturnDone(w, c.task, Some("expire:" + Text(c.task)));
    assert {w.tasks[c.task].creator} + c.told == c.told + Creator(w, c.task);
  }

  lemma CancellingObeys(w: World, c: Command)
    requires c.ChangeState? && c.transition == Cancelling && Transact(w, c).Ok?
    ensures Obeys(w, c, Transact(w, c).value.0, Transact(w, c).value.1)
  {
    hide B.Find, Freed, V.GiveBack, B.Return, Openable;
    GivingBackFrees(w, c.task);
    ReturnDone(w, c.task, None);
    assert {w.tasks[c.task].creator} + c.told == c.told + Creator(w, c.task);
  }

  lemma OpeningObeys(w: World, c: Command)
    requires c.ChangeState? && c.transition != Cancelling && Transact(w, c).Ok?
    ensures Obeys(w, c, Transact(w, c).value.0, Transact(w, c).value.1)
  {
    hide B.Find, Freed, V.GiveBack, B.Return, Openable;
    assert w.book.entries + [] == w.book.entries && w.events + multiset{} == w.events;
    assert {w.tasks[c.task].creator} + c.told == c.told + Creator(w, c.task);
  }

  lemma ChangeStateObeys(w: World, c: Command)
    requires c.ChangeState? && Transact(w, c).Ok?
    ensures Obeys(w, c, Transact(w, c).value.0, Transact(w, c).value.1)
  {
    hide Transact, Obeys;
    if c.transition == Cancelling { CancellingObeys(w, c); } else { OpeningObeys(w, c); }
  }

  lemma SettlingObeys(w: World, c: Command)
    requires (c.Refund? || c.RefundCollectible? || c.Expire? || c.ChangeState?) && Transact(w, c).Ok? && !Repeats(w, c)
    ensures Obeys(w, c, Transact(w, c).value.0, Transact(w, c).value.1)
  {
    hide Transact, Obeys;
    match c
    case Refund(_, _, _, _, _) => RefundObeys(w, c);
    case RefundCollectible(_, _, _) => RefundCollectibleObeys(w, c);
    case Expire(_, _, _) => ExpireObeys(w, c);
    case _ => ChangeStateObeys(w, c);
  }

  lemma EscrowingEscrows(w: World, ids: seq<CollectibleId>, funder: UserId, task: TaskId)
    requires V.EscrowAll(w.vault, ids, funder, task).Ok?
    ensures Escrows(w, V.EscrowAll(w.vault, ids, funder, task).value, ids, task)
  {
    hide V.EscrowAll;
    V.EscrowAllEffect(w.vault, ids, funder, task);
  }

  lemma CreateTaskObeys(w: World, c: Command)
    requires c.CreateTask? && Transact(w, c).Ok?
    ensures Obeys(w, c, Transact(w, c).value.0, Transact(w, c).value.1)
  {
    hide V.EscrowAll, Escrows;
    EscrowingEscrows(w, Offered(c.reward), c.creator, c.task);
    assert w.book.entries + [] == w.book.entries && w.events + multiset{} == w.events;
  }

  lemma FundCollectibleObeys(w: World, c: Command)
    requires c.FundCollectible? && Transact(w, c).Ok?
    ensures Obeys(w, c, Transact(w, c).value.0, Transact(w, c).value.1)
  {
    assert w.book.entries + [] == w.book.entries && w.events + multiset{} == w.events;
    var v := Transact(w, c).value.0.vault;
    assert v.items == map i | i in w.vault.items :: if i in [c.collectible] then w.vault.items[i].(state := V.Escrowed) else w.vault.items[i];
  }

  lemma SubmitObeys(w: World, c: Command)
    requires c.Submit? && Transact(w, c).Ok?
    ensures Obeys(w, c, Transact(w, c).value.0, Transact(w, c).value.1)
  {
    assert w.book.entries + [] == w.book.entries;
    assert {w.tasks[c.task].creator, c.worker} == Creator(w, c.task) + {c.worker};
  }

  /** A command that only touches one part of the vault, and the events. */
  lemma VaultOnly(w: World, c: Command, v: V.Vault, events: multiset<Event>)
    requires Transfers(c) || c.MintCustom? || c.AwardFromCatalog? || c.Withdraw? || c.Release? || c.Delete? || c.AddEntry? || c.FlipEntry? || c.DeleteEntry?
    requires Transact(w, c) == Ok((w.(vault := v, events := events), Done)) && VaultAfter(w, c, v) && events == w.events + EventsAdded(w, c)
    ensures Obeys(w, c, Transact(w, c).value.0, Transact(w, c).value.1)
  {
    hide Transact, VaultAfter, EventsAdded;
    assert w.book.entries + [] == w.book.entries;
  }

  lemma TransferObeys(w: World, c: Command)
    requires Transfers(c) && Transact(w, c).Ok?
    ensures Obeys(w, c, Transact(w, c).value.0, Transact(w, c).value.1)
  {
    var (v, events) := (Transact(w, c).value.0.vault, Transact(w, c).value.0.events);
    assert w.events + multiset{} == w.events;
    match c
    case Gift(id, _, to, _) =>
      assert w.vault.items[id].owner == User(to) ==> w.vault.items[id := w.vault.items[id].(owner := User(to))] == w.vault.items;
      VaultOnly(w, c, v, events);
    case HandOut(_, _, to, _, told) =>
      assert {to} + told == told + {to};
      VaultOnly(w, c, v, events);
    case _ => VaultOnly(w, c, v, events);
  }

  lemma AwardObeys(w: World, c: Command)
    requires c.AwardFromCatalog? && Transact(w, c).Ok?
    ensures Obeys(w, c, Transact(w, c).value.0, Transact(w, c).value.1)
  {
    var numbers := V.Numbers(w.vault, c.slug);
    forall j | FromEntry(w, j, c.slug) && w.vault.items[j].edition.Some? ensures w.vault.items[j].edition.value in numbers {
      assert j in V.Instances(w.vault, c.slug);
    }
    if numbers != {} {
      var top := MaxOf(numbers);
      var j :| j in V.Instances(w.vault, c.slug) && w.vault.items[j].edition == Some(top);
      assert FromEntry(w, j, c.slug);
    }
    assert w.events + multiset{} == w.events;
    VaultOnly(w, c, Transact(w, c).value.0.vault, w.events);
  }

  lemma WithdrawObeys(w: World, c: Command)
    requires (c.Withdraw? || c.Release?) && Transact(w, c).Ok?
    ensures Obeys(w, c, Transact(w, c).value.0, Transact(w, c).value.1)
  {
    hide Obeys, V.Live;
    assert Holder(w.vault, c.collectible) + c.told == c.told + OwnerOf(w, c.collectible);
    VaultOnly(w, c, Transact(w, c).value.0.vault, Transact(w, c).value.0.events);
  }

  lemma CatalogObeys(w: World, c: Command)
    requires c.MintCustom? || c.Delete? || c.AddEntry? || c.FlipEntry? || c.DeleteEntry?
    requires Transact(w, c).Ok?
    ensures Obeys(w, c, Transact(w, c).value.0, Transact(w, c).value.1)
  {
    hide Obeys, V.Instances, V.CapCoherent;
    assert w.events + multiset{} == w.events;
    VaultOnly(w, c, Transact(w, c).value.0.vault, w.events);
  }

  lemma RequestChangesObeys(w: World, c: Command)
    requires c.RequestChanges? && Transact(w, c).Ok? && !Repeats(w, c)
    ensures Obeys(w, c, Transact(w, c).value.0, Transact(w, c).value.1)
  {
    assert w.book.entries + [] == w.book.entries;
  }

  lemma RejectReports(w: World, r: Review, paid: Option<CreditAmount>)
    requires r.submission in w.submissions && paid == if Pays(w, r) > 0 then Some(Pays(w, r)) else None
    ensures Reports(w, r, false, Reviewed(r.submission, Worker(w, r), CombinePayouts(paid, {}), CombineTips(r.tip, None), false))
  {
    hide HoldsSome, Pays;
  }

  lemma RejectObeys(w: World, c: Command)
    requires WorldInv(w) && c.Reject? && Transact(w, c).Ok? && !Repeats(w, c)
    ensures Obeys(w, c, Transact(w, c).value.0, Transact(w, c).value.1)
  {
    hide WorldInv, B.PayReview, PayCreditTip, MayPay, MayTip, PayoutEntries, TipEntries, FundsAfterPayout, Pays, HoldsSome, ReviewEvents, ReviewAnnounced, Reports;
    var r := c.review;
    RejectedTips(w, r);
    CreditsOfReview(w, r, false);
    var paid := B.PayReview(w.book, r.task, User(Worker(w, r)), User(Worker(w, r)) in w.accounts, r.selection, r.key, false).value.1;
    RejectReports(w, r, paid);
    ReviewAnnounces(w, r, SubmissionRejected, CombinePayouts(paid, {}), CombineTips(r.tip, None));
    var e := w.book.entries;
    assert e + PayoutEntries(w, r, false) + TipEntries(w, r) == e + (PayoutEntries(w, r, false) + TipEntries(w, r));
  }

  lemma RejectedTips(w: World, r: Review)
    requires RejectTx(w, r).Ok? && !Repeats(w, Reject(r))
    ensures SubmissionIs(w, r) && (r.tip.Some? ==> r.reviewer.ByUser?)
  {
  }

  lemma DeliveryFrees(w: World, r: Review)
    requires r.submission in w.submissions
    requires PayCollectibleTip(V.Deliver(w.vault, r.task, Worker(w, r)), r, Worker(w, r)).Ok?
    ensures Freed(w, PayCollectibleTip(V.Deliver(w.vault, r.task, Worker(w, r)), r, Worker(w, r)).value, r.task, Some(Worker(w, r)), r.gift)
  {
    var v := PayCollectibleTip(V.Deliver(w.vault, r.task, Worker(w, r)), r, Worker(w, r)).value;
    HeldByIs(w, r.task);
    forall i | i in w.vault.items ensures v.items[i] ==
      if HeldFor(w, i, r.task) then w.vault.items[i].(state := V.Minted, owner := User(Worker(w, r)))
      else if r.gift == Some(i) then w.vault.items[i].(owner := User(Worker(w, r)))
      else w.vault.items[i]
    {}
  }

  lemma AcceptSupersedes(w: World, r: Review, s: Submission)
    requires r.submission in w.submissions && s == w.submissions[r.submission].(state := Accepted, acceptKey := Some(r.key))
    ensures Supersede(w.submissions[r.submission := s], Competing(w, r)) == SubmissionsAfter(w, Accept(r))
  {
  }

  lemma ReviewAnnounces(w: World, r: Review, kind: EventKind, payout: Payout, tip: Tip)
    requires r.submission in w.submissions
    ensures ReviewEvents(kind, r, Worker(w, r), payout, tip) == ReviewAnnounced(w, r, kind, !payout.NoPayout?, !tip.NoTip?)
  {
  }

  lemma LosersAre(w: World, r: Review)
    ensures SupersededEvents(w, r)
         == set s | s in w.submissions && s != r.submission && w.submissions[s].task == r.task && w.submissions[s].state == Submitted ::
              Event(SubmissionSuperseded, OnSubmission(r.task, s), {w.submissions[s].worker})
  {
  }

  lemma AcceptAnnounces(w: World, r: Review, paid: Option<CreditAmount>)
    requires r.submission in w.submissions && (paid.Some? <==> Pays(w, r) > 0)
    ensures var payout := CombinePayouts(paid, V.HeldBy(w.vault, r.task));
      ReviewEvents(SubmissionAccepted, r, Worker(w, r), payout, CombineTips(r.tip, r.gift)) + multiset(SupersededEvents(w, r)) == EventsAdded(w, Accept(r))
  {
    hide Pays, HoldsSome, V.HeldBy, ReviewEvents, ReviewAnnounced, SupersededEvents;
    HeldByIs(w, r.task);
    LosersAre(w, r);
    ReviewAnnounces(w, r, SubmissionAccepted, CombinePayouts(paid, V.HeldBy(w.vault, r.task)), CombineTips(r.tip, r.gift));
  }

  lemma AcceptReports(w: World, r: Review, paid: Option<CreditAmount>)
    requires r.submission in w.submissions && paid == if Pays(w, r) > 0 then Some(Pays(w, r)) else None
    ensures Reports(w, r, true, Reviewed(r.submission, Worker(w, r), CombinePayouts(paid, V.HeldBy(w.vault, r.task)), CombineTips(r.tip, r.gift), false))
  {
    HeldByIs(w, r.task);
    hide HoldsSome, V.HeldBy, Pays;
  }

  lemma AcceptedTips(w: World, r: Review)
    requires AcceptTx(w, r).Ok? && !Repeats(w, Accept(r))
    ensures SubmissionIs(w, r) && (r.tip.Some? ==> r.reviewer.ByUser?)
  {
  }

  lemma AcceptObeys(w: World, c: Command)
    requires WorldInv(w) && c.Accept? && Transact(w, c).Ok? && !Repeats(w, c)
    ensures Obeys(w, c, Transact(w, c).value.0, Transact(w, c).value.1)
  {
    hide WorldInv, B.PayReview, PayCreditTip, PayCollectibleTip, MayPay, MayTip, PayoutEntries, TipEntries, FundsAfterPayout, Pays, HoldsSome, Freed, SubmissionsAfter, EventsAdded, Reports, CombinePayouts, CombineTips, ReviewEvents, SupersededEvents, Supersede, Competing, V.HeldBy, V.Deliver;
    var r := c.review;
    AcceptedTips(w, r);
    CreditsOfReview(w, r, true);
    var paid := B.PayReview(w.book, r.task, User(Worker(w, r)), User(Worker(w, r)) in w.accounts, r.selection, r.key, true).value.1;
    DeliveryFrees(w, r);
    AcceptSupersedes(w, r, w.submissions[r.submission].(state := Accepted, acceptKey := Some(r.key)));
    AcceptAnnounces(w, r, paid);
    AcceptReports(w, r, paid);
    var e := w.book.entries;
    assert e + PayoutEntries(w, r, true) + TipEntries(w, r) == e + (PayoutEntries(w, r, true) + TipEntries(w, r));
  }

  /** Every command that goes through for the first time leaves every table, and replies, as its rule says; a repeated one leaves them alone. */
  lemma EveryCommandObeys(w: World, c: Command)
    requires WorldInv(w) && GoesThrough(w, c)
    ensures if Repeats(w, c) then Step(w, c).0 == w else Obeys(w, c, Step(w, c).0, Step(w, c).1)
  {
    GoesThroughIff(w, c);
    hide WorldInv, GoesThrough, Obeys, Transact;
    RepliesWhenOk(w, c);
    if Repeats(w, c) { RepeatsChangeNothing(w, c); }
    else if c.Accept? { AcceptObeys(w, c); }
    else if c.Reject? { RejectObeys(w, c); }
    else if c.RequestChanges? { RequestChangesObeys(w, c); }
    else if c.Fund? { FundObeys(w, c); }
    else if c.Send? { SendObeys(w, c); }
    else if c.SignupGrant? || c.Grant? { GrantObeys(w, c); }
    else if c.OrganizationGrant? || c.OpenAccount? { AccountObeys(w, c); }
    else if c.Refund? || c.RefundCollectible? || c.Expire? || c.ChangeState? { SettlingObeys(w, c); }
    else { VaultCommandObeys(w, c); }
  }

  lemma VaultCommandObeys(w: World, c: Command)
    requires c.CreateTask? || c.FundCollectible? || c.Submit? || Transfers(c) || c.MintCustom? || c.AwardFromCatalog? || c.Withdraw? || c.Release? || c.Delete? || c.AddEntry? || c.FlipEntry? || c.DeleteEntry?
    requires Transact(w, c).Ok?
    ensures Obeys(w, c, Transact(w, c).value.0, Transact(w, c).value.1)
  {
    hide Obeys, Transact;
    if c.CreateTask? { CreateTaskObeys(w, c); }
    else if c.FundCollectible? { FundCollectibleObeys(w, c); }
    else if c.Submit? { SubmitObeys(w, c); }
    else if Transfers(c) { TransferObeys(w, c); }
    else if c.AwardFromCatalog? { AwardObeys(w, c); }
    else if c.Withdraw? || c.Release? { WithdrawObeys(w, c); }
    else { CatalogObeys(w, c); }
  }

  lemma RepeatsChangeNothing(w: World, c: Command)
    requires WorldInv(w) && Transact(w, c).Ok? && Repeats(w, c)
    ensures Transact(w, c).value.0 == w
  {
    UniqueKeys(w);
    hide WorldInv, B.Balance;
    if KeySlot(c).Some? { FindIs(w, KeySlot(c).value.0, KeySlot(c).value.1); }
  }

  /** What a repeated command is answered: the record it finds, and nothing newly paid or tipped. */
  ghost predicate RepliesFromRecord(w: World, c: Command, reply: Reply) {
    match c
    case Accept(r) =>
      && r.submission in w.submissions && reply.Reviewed?
      && reply == Reviewed(r.submission, Worker(w, r), reply.payout, NoTip, true)
      && (reply.payout.NoPayout? || reply.payout.CreditPayout?)
      && (reply.payout.NoPayout? <==> forall e <- w.book.entries :: e.kind == B.TaskPayout && e.task == Some(r.task) ==> e.key != Some(r.key))
      && (reply.payout.CreditPayout? ==>
            exists e <- w.book.entries :: e.kind == B.TaskPayout && e.task == Some(r.task) && e.key == Some(r.key) && e.amount == reply.payout.amount)
    case Reject(r) => r.submission in w.submissions && reply == Reviewed(r.submission, Worker(w, r), NoPayout, NoTip, true)
    case RequestChanges(r) => r.submission in w.submissions && reply == Reviewed(r.submission, Worker(w, r), NoPayout, NoTip, true)
    case Refund(_, task, key, _, _) =>
      exists e <- w.book.entries :: e.kind == B.TaskRefund && e.task == Some(task) && e.key == Some(key) && reply == Refunded(e.account, e.amount, true)
    case _ => KeySlot(c).Some? && exists e <- w.book.entries :: e.account == KeySlot(c).value.0 && e.key == Some(KeySlot(c).value.1) && ReplayOf(reply, c, e)
  }

  lemma ReviewsReplyFromRecord(w: World, c: Command)
    requires WorldInv(w) && (c.Accept? || c.Reject? || c.RequestChanges?) && Transact(w, c).Ok? && Repeats(w, c)
    ensures RepliesFromRecord(w, c, Transact(w, c).value.1)
  {
    assert forall e <- w.book.entries :: e.kind == B.TaskPayout ==> e.amount > 0;
    hide WorldInv, FirstAccept, FirstReject;
  }

  lemma RefundRepliesFromRecord(w: World, c: Command)
    requires c.Refund? && Transact(w, c).Ok? && Repeats(w, c)
    ensures RepliesFromRecord(w, c, Transact(w, c).value.1)
  {
    RefundFound(w.book.entries, c.task, c.key);
    hide FindRefund, B.Return;
  }

  lemma RepeatedRepliesFromRecord(w: World, c: Command)
    requires WorldInv(w) && GoesThrough(w, c) && Repeats(w, c)
    ensures Step(w, c).0 == w && RepliesFromRecord(w, c, Step(w, c).1)
  {
    EveryCommandObeys(w, c);
    GoesThroughIff(w, c);
    hide WorldInv, Transact, RepliesFromRecord;
    RepliesWhenOk(w, c);
    if KeySlot(c).Some? { SlotRepliesFromRecord(w, c); }
    else if c.Refund? { RefundRepliesFromRecord(w, c); }
    else { ReviewsReplyFromRecord(w, c); }
  }

  lemma SlotRepliesFromRecord(w: World, c: Command)
    requires WorldInv(w) && KeySlot(c).Some? && GoesThrough(w, c) && Repeats(w, c)
    ensures RepliesFromRecord(w, c, Step(w, c).1)
  {
    hide WorldInv, Step;
    var e :| e in w.book.entries && e.account == KeySlot(c).value.0 && e.key == Some(KeySlot(c).value.1) && Records(e, c);
    UsedSlotAnswers(w, c, e);
  }

  /**
   What an accept does to each collectible: those held become the worker's, free
   again; the one tipped becomes the worker's; no other changes. What moves as a
   tip was the reviewer's to give, and the reply names what was tipped.
   */
  lemma AcceptMovesCollectibles(w: World, r: Review, id: CollectibleId)
    requires WorldInv(w) && AcceptTx(w, r).Ok? && !AcceptTx(w, r).value.1.replay && id in w.vault.items
    ensures var (w', worker, old_) := (AcceptTx(w, r).value.0, User(w.submissions[r.submission].worker), w.vault.items[id]);
      && id in w'.vault.items
      && w'.vault.items[id] == (if HeldFor(w, id, r.task) then old_.(state := V.Minted, owner := worker)
                                else if r.gift == Some(id) then old_.(owner := worker)
                                else old_)
      && (w'.vault.items[id] != old_ && !HeldFor(w, id, r.task) ==> r.reviewer.ByUser? && MayGive(old_, r.reviewer.user, r.shared))
    ensures match AcceptTx(w, r).value.1.tip
      case NoTip => r.tip.None? && r.gift.None?
      case CreditTip(n) => r.tip == Some(n) && r.gift.None?
      case CollectibleTip(i) => r.tip.None? && r.gift == Some(i)
      case BundleTip(n, i) => r.tip == Some(n) && r.gift == Some(i)
  {
    var c := Accept(r);
    assert Step(w, c) == AcceptTx(w, r).value && !Step(w, c).1.Refused? && !Repeats(w, c) by { FirstAcceptIsNoRepeat(w, r); }
    GoesThroughIff(w, c);
    EveryCommandObeys(w, c);
    hide WorldInv, AcceptTx, Step, Repeats, MayPay, MayTip, MayReview, NoneAccepted, HoldsSome, EntriesAdded, FundsAfter, EventsAdded, TasksAfter, SubmissionsAfter;
  }

  lemma FirstAcceptIsNoRepeat(w: World, r: Review)
    requires AcceptTx(w, r).Ok? && !AcceptTx(w, r).value.1.replay
    ensures Step(w, Accept(r)) == AcceptTx(w, r).value && !Step(w, Accept(r)).1.Refused? && !Repeats(w, Accept(r))
  {
  }
}
