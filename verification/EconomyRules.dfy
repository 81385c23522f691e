/**
 When a command goes through: who may do what, and what must hold in the tables.
 The rules are stated on rows and columns alone, for each of the 28 commands, and
 a command is proved to be refused exactly when its rule does not hold.
 */
module EconomyRules {
  import opened Prelude
  import opened Economy
  import opened EconomyInvariant
  import opened EconomyTheorems
  import B = Book
  import V = Vault

  // ---- reading the tables ----

  /** An account has an entry under a key. */
  ghost predicate Used(w: World, account: Party, key: Key) {
    exists e <- w.book.entries :: e.account == account && e.key == Some(key)
  }

  predicate HeldFor(w: World, i: CollectibleId, task: TaskId) {
    i in w.vault.held && w.vault.held[i] == task
  }

  ghost predicate HoldsSome(w: World, task: TaskId) {
    exists i :: HeldFor(w, i, task)
  }

  predicate InState(w: World, task: TaskId, states: set<TaskState>) {
    task in w.tasks && w.tasks[task].state in states
  }

  /** The creator, a permitted member of the task's organization, or that organization's own credential. */
  predicate MayReview(w: World, task: TaskId, reviewer: Reviewer) {
    task in w.tasks &&
    match reviewer
    case ByUser(u, permitted) => u == w.tasks[task].creator || (permitted && w.tasks[task].organization != None)
    case ByOrganization(org) => Some(org) == w.tasks[task].organization
  }

  /** The creator, or the organization that owns the task. */
  predicate MayFund(w: World, task: TaskId, payer: Party) {
    task in w.tasks &&
    (payer == User(w.tasks[task].creator) || (w.tasks[task].organization.Some? && payer == Organization(w.tasks[task].organization.value)))
  }

  /** The creator or the active implementor, of a task that is not awarded yet. */
  predicate MayRefund(w: World, task: TaskId, requester: UserId, implementor: bool) {
    InState(w, task, {Draft, Open}) && (requester == w.tasks[task].creator || implementor)
  }

  predicate Tippable(i: V.Collectible) {
    i.policy in {V.BetweenUsers, V.WithinOrganization}
  }

  /** Free to leave a user's hands towards another: unescrowed, tippable, and within one organization if it must stay there. */
  predicate MayGive(i: V.Collectible, giver: UserId, shared: bool) {
    i.owner == User(giver) && i.state == V.Minted && Tippable(i) && (i.policy == V.WithinOrganization ==> i.scope != None && shared)
  }

  /** Free to become a reward: its owner's, unescrowed, and not controlled by its issuer. */
  predicate MayReward(w: World, i: CollectibleId, funder: UserId) {
    i in w.vault.items && w.vault.items[i].owner == User(funder) && w.vault.items[i].state == V.Minted && w.vault.items[i].policy != V.IssuerControlled
  }

  function Worker(w: World, r: Review): UserId
    requires r.submission in w.submissions
  {
    w.submissions[r.submission].worker
  }

  /** What a review pays out of the task's row: nothing, all of it, or the part selected. */
  function Pays(w: World, r: Review): int {
    if r.selection.NoCredit? || r.task !in w.book.funds then 0
    else if r.selection.Partial? then r.selection.amount
    else w.book.funds[r.task].amount
  }

  ghost predicate MayPay(w: World, r: Review)
    requires r.submission in w.submissions
  {
    && (r.selection.Partial? ==> r.task in w.book.funds && r.selection.amount <= w.book.funds[r.task].amount)
    && (Pays(w, r) > 0 ==> User(Worker(w, r)) in w.accounts && !Used(w, User(Worker(w, r)), r.key))
  }

  /** What the payout does to an account before the tip is paid. */
  function PaidOut(w: World, r: Review, closing: bool, account: Party): int
    requires r.submission in w.submissions
  {
    (if account == User(Worker(w, r)) then Pays(w, r) else 0)
    + (if closing && Pays(w, r) > 0 && r.task in w.book.funds && account == w.book.funds[r.task].funder then w.book.funds[r.task].amount - Pays(w, r) else 0)
  }

  /** Only a user tips, out of what they can spend after the payout, once under a key. */
  ghost predicate MayTip(w: World, r: Review, closing: bool)
    requires r.submission in w.submissions
  {
    r.tip.Some? ==>
      && r.reviewer.ByUser?
      && User(r.reviewer.user) in w.accounts && User(Worker(w, r)) in w.accounts
      && B.Balance(w.book, User(r.reviewer.user)) + PaidOut(w, r, closing, User(r.reviewer.user)) >= r.tip.value
      && !Used(w, User(r.reviewer.user), r.key + ":tip-debit") && !Used(w, User(Worker(w, r)), r.key + ":tip-credit")
  }

  /** A gift that the worker has, or gets with the reward, changes nothing; any other must be the reviewer's to give. */
  predicate MayGift(w: World, r: Review)
    requires r.submission in w.submissions
  {
    r.gift.Some? ==>
      && r.reviewer.ByUser? && r.gift.value in w.vault.items
      && (HeldFor(w, r.gift.value, r.task) || w.vault.items[r.gift.value].owner == User(Worker(w, r))
          || MayGive(w.vault.items[r.gift.value], r.reviewer.user, r.shared))
  }

  /** The entry a keyed command looks for is the one it would have written. */
  predicate Records(e: B.Entry, c: Command) {
    match c
    case SignupGrant(_) => true
    case Grant(_, amount, _, _) => e.kind == B.ManualAdjustment && e.amount == amount
    case Fund(_, task, _, _, _, _) => e.kind == B.TaskFund && e.task == Some(task)
    case Send(_, _, amount, _, _, _, _, _) => e.kind == B.PeerTransfer && e.amount == -(amount as int)
    case _ => false
  }

  /** The (account, key) slot of a keyed command. */
  function KeySlot(c: Command): Option<(Party, Key)> {
    match c
    case SignupGrant(user) => Some((User(user), "signup_grant:" + Text(user)))
    case Grant(target, _, key, _) => Some((target, key))
    case Fund(payer, _, _, key, _, _) => Some((payer, key))
    case Send(source, _, _, key, _, _, _, _) => Some((source, key + ":send-debit"))
    case _ => None
  }

  /** What a keyed command is asked before its key: its accounts exist, and a send goes from someone entitled to someone else. */
  predicate Reaches(w: World, c: Command)
    requires KeySlot(c).Some?
  {
    && KeySlot(c).value.0 in w.accounts
    && (c.Send? ==> c.dest in w.accounts && c.source != c.dest && (c.source.Organization? ==> c.billing))
  }

  ghost predicate SlotUsed(w: World, c: Command)
    requires KeySlot(c).Some?
  {
    Used(w, KeySlot(c).value.0, KeySlot(c).value.1)
  }

  ghost predicate SlotRecords(w: World, c: Command)
    requires KeySlot(c).Some?
  {
    exists e <- w.book.entries :: e.account == KeySlot(c).value.0 && e.key == Some(KeySlot(c).value.1) && Records(e, c)
  }

  // ---- a key used for something else ----

  lemma FindIs(w: World, account: Party, key: Key)
    requires B.KeysUnique(w.book.entries)
    ensures B.Find(w.book.entries, account, key).Some? <==> Used(w, account, key)
    ensures forall e <- w.book.entries :: e.account == account && e.key == Some(key) ==> B.Find(w.book.entries, account, key) == Some(e)
  {
    forall e | e in w.book.entries && e.account == account && e.key == Some(key) ensures B.Find(w.book.entries, account, key) == Some(e) {
      var i :| 0 <= i < |w.book.entries| && w.book.entries[i] == e;
      var f := B.Find(w.book.entries, account, key).value;
      var j :| 0 <= j < |w.book.entries| && w.book.entries[j] == f;
      assert i == j;
    }
  }

  predicate ReplayOf(reply: Reply, c: Command, e: B.Entry) {
    match c
    case SignupGrant(_) => reply == Moved(100, true)
    case Grant(_, amount, _, _) => reply == Moved(amount, true)
    case Fund(payer, task, _, _, _, _) => reply == Funded(task, payer, -e.amount, true)
    case Send(_, _, amount, _, _, _, _, _) => reply == Moved(amount, true)
    case _ => false
  }

  /**
   A keyed command that finds an entry in its slot never moves anything: it is
   answered as a replay if the entry records it and refused as a reuse of the key
   otherwise.
   */
  lemma UsedSlotAnswers(w: World, c: Command, e: B.Entry)
    requires WorldInv(w) && KeySlot(c).Some? && Reaches(w, c)
    requires e in w.book.entries && e.account == KeySlot(c).value.0 && e.key == Some(KeySlot(c).value.1)
    ensures Step(w, c).0 == w
    ensures if Records(e, c) then ReplayOf(Step(w, c).1, c, e) else Step(w, c).1 == Refused(KeyReused)
  {
    hide WorldInv;
    UniqueKeys(w);
    FindIs(w, KeySlot(c).value.0, KeySlot(c).value.1);
  }

  lemma UniqueKeys(w: World)
    requires WorldInv(w)
    ensures B.KeysUnique(w.book.entries)
  {
  }

  /** So it is after any run of commands, whoever used the key first and for what. */
  lemma UsedSlotAnswersInRun(commands: seq<Command>, c: Command, e: B.Entry)
    requires var w := Run(EMPTY, commands);
      KeySlot(c).Some? && Reaches(w, c) && e in w.book.entries && e.account == KeySlot(c).value.0 && e.key == Some(KeySlot(c).value.1)
    ensures var w := Run(EMPTY, commands);
      Step(w, c).0 == w && if Records(e, c) then ReplayOf(Step(w, c).1, c, e) else Step(w, c).1 == Refused(KeyReused)
  {
    hide Step, Run, WorldInv;
    EmptyKeeps();
    RunKeeps(EMPTY, commands);
    UsedSlotAnswers(Run(EMPTY, commands), c, e);
  }

  // ---- when a command goes through ----

  ghost predicate SubmissionIs(w: World, r: Review) {
    r.submission in w.submissions && w.submissions[r.submission].task == r.task
  }

  ghost predicate NoneAccepted(w: World, task: TaskId) {
    forall s <- w.submissions :: w.submissions[s].task == task ==> w.submissions[s].state != Accepted
  }

  ghost predicate MayAccept(w: World, r: Review) {
    && MayReview(w, r.task, r.reviewer) && SubmissionIs(w, r)
    && match w.submissions[r.submission].state
       case Accepted => w.submissions[r.submission].acceptKey == Some(r.key)
       case Submitted =>
         && InState(w, r.task, {Open}) && NoneAccepted(w, r.task) && r.spendOk
         && MayPay(w, r) && MayTip(w, r, true) && MayGift(w, r)
         && (w.tasks[r.task].reward in {CreditReward, BundleReward} ==> Pays(w, r) > 0 || HoldsSome(w, r.task))
       case _ => false
  }

  ghost predicate MayReject(w: World, r: Review) {
    && MayReview(w, r.task, r.reviewer) && SubmissionIs(w, r) && InState(w, r.task, {Open})
    && match w.submissions[r.submission].state
       case Rejected => w.submissions[r.submission].rejectKey == Some(r.key)
       case Submitted => r.spendOk && MayPay(w, r) && MayTip(w, r, false) && (r.ban ==> r.reviewer.ByUser?)
       case _ => false
  }

  ghost predicate MayRequestChanges(w: World, r: Review) {
    && MayReview(w, r.task, r.reviewer) && SubmissionIs(w, r) && InState(w, r.task, {Open})
    && match w.submissions[r.submission].state
       case ChangesRequested => w.submissions[r.submission].changesKey == Some(r.key)
       case Submitted => true
       case _ => false
  }

  /** A funded task is refunded under a key new to the task and to its funder; an unfunded one only replays its refund. */
  ghost predicate MayRefundCredits(w: World, c: Command)
    requires c.Refund?
  {
    && MayRefund(w, c.task, c.requester, c.implementor)
    && if c.task in w.book.funds then
         !Used(w, w.book.funds[c.task].funder, c.key) && forall e <- w.book.entries :: e.task == Some(c.task) ==> e.key != Some(c.key)
       else exists e <- w.book.entries :: e.kind == B.TaskRefund && e.task == Some(c.task) && e.key == Some(c.key)
  }

  /** Where a service transition leads from the state it saw; no other transition exists. */
  predicate Leads(seen: TaskState, t: Transition, target: TaskState) {
    || (t == Opening && seen == Draft && target == Open)
    || (t == Cancelling && seen in {Draft, Open} && target == Cancelled)
    || (t == Unpublishing && seen == Open && target == Draft)
  }

  /** What a task declares is there: all of its credits, and at least one collectible. */
  ghost predicate Covered(w: World, task: TaskId)
    requires task in w.tasks
  {
    && (w.tasks[task].reward in {CreditReward, BundleReward} ==> task in w.book.funds && w.book.funds[task].amount == w.tasks[task].declared)
    && (w.tasks[task].reward in {CollectibleReward, BundleReward} ==> HoldsSome(w, task))
  }

  function Offered(reward: RewardSpec): seq<CollectibleId> {
    match reward
    case Collectibles(ids) => ids
    case Bundle(_, ids) => ids
    case _ => []
  }

  ghost predicate FromEntry(w: World, i: CollectibleId, slug: V.Slug) {
    i in w.vault.items && w.vault.items[i].catalog == Some(slug)
  }

  /** A unique entry has one live instance at a time, an edition numbers left. */
  ghost predicate RoomFor(w: World, slug: V.Slug)
    requires slug in w.vault.catalog
  {
    match w.vault.catalog[slug].kind
    case Unique => forall i :: FromEntry(w, i, slug) ==> w.vault.items[i].state == V.Withdrawn
    case Edition => forall i :: FromEntry(w, i, slug) && w.vault.items[i].edition.Some? && w.vault.catalog[slug].cap.Some? ==>
      w.vault.items[i].edition.value < w.vault.catalog[slug].cap.value
    case Badge => true
  }

  ghost predicate MayMoveCollectible(w: World, c: Command) {
    match c
    case Gift(id, from, to, shared) => id in w.vault.items && (w.vault.items[id].owner == User(to) || MayGive(w.vault.items[id], from, shared))
    case AwardMember(id, org, _, member) =>
      id in w.vault.items && w.vault.items[id].owner.Organization? && w.vault.items[id].scope == Some(org) && w.vault.items[id].state == V.Minted && member
    case Donate(id, from, org, member) =>
      && id in w.vault.items && w.vault.items[id].owner == User(from) && w.vault.items[id].state == V.Minted && Tippable(w.vault.items[id])
      && (w.vault.items[id].policy == V.WithinOrganization ==> w.vault.items[id].scope == Some(org) && member)
    case HandOut(id, org, _, permitted, _) =>
      && permitted && id in w.vault.items && w.vault.items[id].owner.Organization? && w.vault.items[id].scope == Some(org)
      && w.vault.items[id].state == V.Minted && Tippable(w.vault.items[id])
    case _ => false
  }

  ghost predicate MayRunCatalog(w: World, c: Command) {
    match c
    case MintCustom(id, _, _, _, _) => id !in w.vault.items
    case AwardFromCatalog(id, slug, _, _) => slug in w.vault.catalog && w.vault.catalog[slug].available && RoomFor(w, slug) && id !in w.vault.items
    case Withdraw(id, _) => id in w.vault.items && w.vault.items[id].catalog.Some? && w.vault.items[id].state == V.Minted
    case Release(id, _) =>
      && id in w.vault.items && w.vault.items[id].state == V.Withdrawn
      && (w.vault.items[id].kind == V.Unique ==>
            forall i <- w.vault.items :: w.vault.items[i].catalog == w.vault.items[id].catalog ==> w.vault.items[i].state == V.Withdrawn)
    case Delete(id) => id in w.vault.items && w.vault.items[id].state == V.Withdrawn
    case AddEntry(slug, e) =>
      && slug !in w.vault.catalog
      && (e.kind == V.Unique ==> e.cap == Some(1)) && (e.kind == V.Edition ==> e.cap.Some? && e.cap.value >= 1) && (e.kind == V.Badge ==> e.cap.None?)
    case FlipEntry(slug, available) => slug in w.vault.catalog && w.vault.catalog[slug].available != available
    case DeleteEntry(slug) => slug in w.vault.catalog && !w.vault.catalog[slug].available && forall i :: !FromEntry(w, i, slug)
    case _ => false
  }

  ghost predicate MaySettle(w: World, c: Command) {
    match c
    case Refund(_, _, _, _, _) => MayRefundCredits(w, c)
    case RefundCollectible(requester, task, implementor) =>
      MayRefund(w, task, requester, implementor) && w.tasks[task].reward != BundleReward && HoldsSome(w, task)
    case ChangeState(task, seen, t, _) =>
      task in w.tasks && (Leads(seen, t, Draft) || Leads(seen, t, Cancelled) || (Leads(seen, t, Open) && Covered(w, task)))
    case Expire(task, due, _) =>
      due && InState(w, task, {Open}) && (task in w.book.funds ==> !Used(w, w.book.funds[task].funder, "expire:" + Text(task)))
    case _ => false
  }

  ghost predicate MayGrow(w: World, c: Command) {
    match c
    case OpenAccount(owner) => owner !in w.accounts
    case OrganizationGrant(org, verified) => Organization(org) !in w.accounts && (verified ==> !Used(w, Organization(org), "org_grant:" + Text(org)))
    case CreateTask(task, creator, _, reward) =>
      && task !in w.tasks
      && (forall i <- Offered(reward) :: MayReward(w, i, creator))
      && (forall i, j :: 0 <= i < j < |Offered(reward)| ==> Offered(reward)[i] != Offered(reward)[j])
    case Submit(submission, task, _, _) => task in w.tasks && submission !in w.submissions
    case FundCollectible(funder, task, i) => MayReward(w, i, funder) && InState(w, task, {Draft}) && w.tasks[task].creator == funder
    case _ => false
  }

  ghost predicate MayMoveCredits(w: World, c: Command)
    requires KeySlot(c).Some?
  {
    && Reaches(w, c)
    && if SlotUsed(w, c) then SlotRecords(w, c)
       else match c
         case SignupGrant(_) => true
         case Grant(_, _, _, _) => true
         case Fund(payer, task, amount, _, _, spendOk) =>
           && spendOk && InState(w, task, {Draft}) && MayFund(w, task, payer) && task !in w.book.funds
           && B.Balance(w.book, payer) >= amount
           && (w.tasks[task].reward in {CreditReward, BundleReward} ==> w.tasks[task].declared == amount)
         case Send(source, dest, amount, key, _, spendOk, _, _) =>
           spendOk && B.Balance(w.book, source) >= amount && !Used(w, dest, key + ":send-credit")
         case _ => false
  }

  /** What must hold in the tables for a command to go through, first time or as a replay. */
  ghost predicate GoesThrough(w: World, c: Command) {
    if KeySlot(c).Some? then MayMoveCredits(w, c)
    else match c
      case Accept(r) => MayAccept(w, r)
      case Reject(r) => MayReject(w, r)
      case RequestChanges(r) => MayRequestChanges(w, r)
      case _ => MaySettle(w, c) || MayGrow(w, c) || MayMoveCollectible(w, c) || MayRunCatalog(w, c)
  }

  lemma CreditsGoThrough(w: World, c: Command)
    requires WorldInv(w) && KeySlot(c).Some?
    ensures Transact(w, c).Ok? <==> MayMoveCredits(w, c)
  {
    hide WorldInv;
    UniqueKeys(w);
    FindIs(w, KeySlot(c).value.0, KeySlot(c).value.1);
    if c.Send? { FindIs(w, c.dest, c.key + ":send-credit"); }
  }

  lemma HeldByIs(w: World, task: TaskId)
    ensures forall i :: i in V.HeldBy(w.vault, task) <==> HeldFor(w, i, task)
    ensures V.HeldBy(w.vault, task) != {} <==> HoldsSome(w, task)
  {
  }

  lemma {:induction false} RefundFound(entries: seq<B.Entry>, task: TaskId, key: Key)
    ensures FindRefund(entries, task, key).Some? <==> exists e <- entries :: e.kind == B.TaskRefund && e.task == Some(task) && e.key == Some(key)
    ensures var f := FindRefund(entries, task, key);
      f.Some? ==> f.value in entries && f.value.kind == B.TaskRefund && f.value.task == Some(task) && f.value.key == Some(key)
  {
    if entries != [] {
      RefundFound(entries[1..], task, key);
      assert forall e :: e in entries <==> e == entries[0] || e in entries[1..];
    }
  }

  lemma ReturnGoesThrough(w: World, task: TaskId, key: Option<Key>)
    requires WorldInv(w)
    ensures B.Return(w.book, task, key).Ok? <==> (task in w.book.funds && key.Some? ==> !Used(w, w.book.funds[task].funder, key.value))
  {
    UniqueKeys(w);
    if task in w.book.funds && key.Some? { FindIs(w, w.book.funds[task].funder, key.value); }
  }

  lemma RefundGoesThrough(w: World, c: Command)
    requires WorldInv(w) && c.Refund?
    ensures Transact(w, c).Ok? <==> MayRefundCredits(w, c)
  {
    ReturnGoesThrough(w, c.task, Some(c.key));
    RefundFound(w.book.entries, c.task, c.key);
    UniqueKeys(w);
    if c.task in w.book.funds { FindIs(w, w.book.funds[c.task].funder, c.key); }
    hide WorldInv, B.Return, B.Find, FindRefund;
  }

  lemma SettlingGoesThrough(w: World, c: Command)
    requires WorldInv(w) && (c.Refund? || c.RefundCollectible? || c.ChangeState? || c.Expire?)
    ensures Transact(w, c).Ok? <==> MaySettle(w, c)
  {
    hide WorldInv, B.Return, B.Find, FindRefund, MayRefundCredits;
    HeldByIs(w, c.task);
    match c
    case Refund(_, _, _, _, _) => RefundGoesThrough(w, c);
    case ChangeState(task, _, _, _) => ReturnGoesThrough(w, task, None);
    case Expire(task, _, _) => ReturnGoesThrough(w, task, Some("expire:" + Text(task)));
    case _ =>
  }

  lemma {:induction false} EscrowAllGoesThrough(w: World, ids: seq<CollectibleId>, funder: UserId, task: TaskId)
    requires V.VaultInv(w.vault)
    ensures V.EscrowAll(w.vault, ids, funder, task).Ok? <==>
            (forall i <- ids :: MayReward(w, i, funder)) && forall i, j :: 0 <= i < j < |ids| ==> ids[i] != ids[j]
  {
    if ids != [] {
      var n := |ids| - 1;
      EscrowAllGoesThrough(w, ids[..n], funder, task);
      assert forall i :: i in ids <==> i in ids[..n] || i == ids[n];
      if V.EscrowAll(w.vault, ids[..n], funder, task).Ok? {
        V.EscrowAllEffect(w.vault, ids[..n], funder, task);
        V.EscrowAllKeeps(w.vault, ids[..n], funder, task);
      }
    }
  }

  lemma GrowingGoesThrough(w: World, c: Command)
    requires WorldInv(w) && (c.OpenAccount? || c.OrganizationGrant? || c.CreateTask? || c.Submit? || c.FundCollectible?)
    ensures Transact(w, c).Ok? <==> MayGrow(w, c)
  {
    UniqueKeys(w);
    match c
    case CreateTask(task, creator, _, reward) =>
      EscrowAllGoesThrough(w, Offered(reward), creator, task);
      hide WorldInv, V.EscrowAll;
    case OrganizationGrant(org, _) =>
      FindIs(w, Organization(org), "org_grant:" + Text(org));
      hide WorldInv;
    case _ =>
  }

  lemma TransfersGoThrough(w: World, c: Command)
    requires WorldInv(w) && Transfers(c)
    ensures Transact(w, c).Ok? <==> MayMoveCollectible(w, c)
  {
  }

  lemma AwardGoesThrough(w: World, c: Command)
    requires WorldInv(w) && c.AwardFromCatalog?
    ensures Transact(w, c).Ok? <==> MayRunCatalog(w, c)
  {
    if c.slug in w.vault.catalog {
      var (e, numbers) := (w.vault.catalog[c.slug], V.Numbers(w.vault, c.slug));
      assert V.CapCoherent(e);
      forall i | FromEntry(w, i, c.slug) && w.vault.items[i].edition.Some? ensures w.vault.items[i].edition.value in numbers {
        assert i in V.Instances(w.vault, c.slug);
      }
      assert numbers != {} ==> MaxOf(numbers) in numbers;
      forall i | FromEntry(w, i, c.slug) && w.vault.items[i].state != V.Withdrawn ensures i in V.Live(w.vault, c.slug) {}
      hide MaxOf, V.CapCoherent, WorldInv;
    }
  }

  lemma ReleaseGoesThrough(w: World, c: Command)
    requires WorldInv(w) && c.Release?
    ensures Transact(w, c).Ok? <==> MayRunCatalog(w, c)
  {
    if c.collectible in w.vault.items {
      assert V.InstanceOk(w.vault, w.vault.items[c.collectible]);
      var slug := w.vault.items[c.collectible].catalog;
      if slug.Some? {
        forall i | i in w.vault.items && w.vault.items[i].catalog == slug && w.vault.items[i].state != V.Withdrawn ensures i in V.Live(w.vault, slug.value) {}
      }
      hide WorldInv;
    }
  }

  lemma InstancesGoThrough(w: World, c: Command)
    requires WorldInv(w) && (c.MintCustom? || c.Withdraw? || c.Delete?)
    ensures Transact(w, c).Ok? <==> MayRunCatalog(w, c)
  {
    assert V.EscrowInv(w.vault);
    hide WorldInv;
  }

  lemma EntriesGoThrough(w: World, c: Command)
    requires c.AddEntry? || c.FlipEntry? || c.DeleteEntry?
    ensures Transact(w, c).Ok? <==> MayRunCatalog(w, c)
  {
    if c.DeleteEntry? {
      var instances := V.Instances(w.vault, c.slug);
      assert forall i :: i in instances <==> FromEntry(w, i, c.slug);
      assert instances == {} <==> forall i :: i !in instances;
    }
  }

  lemma CatalogGoesThrough(w: World, c: Command)
    requires WorldInv(w)
    requires c.MintCustom? || c.AwardFromCatalog? || c.Withdraw? || c.Release? || c.Delete? || c.AddEntry? || c.FlipEntry? || c.DeleteEntry?
    ensures Transact(w, c).Ok? <==> MayRunCatalog(w, c)
  {
    hide WorldInv, Transact, MayRunCatalog;
    if c.AwardFromCatalog? { AwardGoesThrough(w, c); }
    else if c.Release? { ReleaseGoesThrough(w, c); }
    else if c.MintCustom? || c.Withdraw? || c.Delete? { InstancesGoThrough(w, c); }
    else { EntriesGoThrough(w, c); }
  }

  lemma RequestChangesGoesThrough(w: World, r: Review)
    ensures RequestChangesTx(w, r).Ok? <==> MayRequestChanges(w, r)
  {
  }

  lemma PayGoesThrough(w: World, r: Review, closing: bool)
    requires WorldInv(w) && r.submission in w.submissions
    ensures var worker := User(Worker(w, r));
      B.PayReview(w.book, r.task, worker, worker in w.accounts, r.selection, r.key, closing).Ok? <==> MayPay(w, r)
  {
    UniqueKeys(w);
    FindIs(w, User(Worker(w, r)), r.key);
    assert r.task in w.book.funds ==> w.book.funds[r.task].amount > 0;
    hide WorldInv;
  }

  /** What a review's payout adds to the ledger. */
  function PayoutEntries(w: World, r: Review, closing: bool): seq<B.Entry>
    requires r.submission in w.submissions
  {
    if Pays(w, r) <= 0 || r.task !in w.book.funds then []
    else
      var (fund, paid) := (w.book.funds[r.task], B.Entry(User(Worker(w, r)), B.TaskPayout, Pays(w, r), Some(r.task), Some(r.key)));
      if closing && fund.amount > Pays(w, r) then [paid, B.Entry(fund.funder, B.TaskRefund, fund.amount - Pays(w, r), Some(r.task), None)] else [paid]
  }

  /** What it leaves of the task's row. */
  function FundsAfterPayout(w: World, r: Review, closing: bool): map<TaskId, B.Fund> {
    if Pays(w, r) <= 0 || r.task !in w.book.funds then w.book.funds
    else if closing || w.book.funds[r.task].amount == Pays(w, r) then w.book.funds - {r.task}
    else w.book.funds[r.task := B.Fund(w.book.funds[r.task].funder, w.book.funds[r.task].amount - Pays(w, r))]
  }

  lemma PayoutDone(w: World, r: Review, closing: bool)
    requires WorldInv(w) && r.submission in w.submissions
    requires var worker := User(Worker(w, r)); B.PayReview(w.book, r.task, worker, worker in w.accounts, r.selection, r.key, closing).Ok?
    ensures var worker := User(Worker(w, r));
      var (book, paid) := B.PayReview(w.book, r.task, worker, worker in w.accounts, r.selection, r.key, closing).value;
      && book == B.Book(w.book.entries + PayoutEntries(w, r, closing), FundsAfterPayout(w, r, closing))
      && paid == if Pays(w, r) > 0 then Some(Pays(w, r)) else None
  {
    assert r.task in w.book.funds ==> w.book.funds[r.task].amount > 0;
    hide WorldInv, B.Find;
  }

  function TipEntries(w: World, r: Review): seq<B.Entry>
    requires r.submission in w.submissions && (r.tip.Some? ==> r.reviewer.ByUser?)
  {
    if r.tip.None? then []
    else [B.Entry(User(r.reviewer.user), B.TaskTip, -(r.tip.value as int), Some(r.task), Some(r.key + ":tip-debit")),
          B.Entry(User(Worker(w, r)), B.TaskTip, r.tip.value, Some(r.task), Some(r.key + ":tip-credit"))]
  }

  lemma PaidBalance(w: World, r: Review, closing: bool, account: Party)
    requires WorldInv(w) && r.submission in w.submissions
    requires var worker := User(Worker(w, r)); B.PayReview(w.book, r.task, worker, worker in w.accounts, r.selection, r.key, closing).Ok?
    ensures var worker := User(Worker(w, r));
      var book := B.PayReview(w.book, r.task, worker, worker in w.accounts, r.selection, r.key, closing).value.0;
      B.Balance(book, account) == B.Balance(w.book, account) + PaidOut(w, r, closing, account)
  {
    hide WorldInv, B.PayReview, B.Balance, B.BookInv, PayoutEntries, FundsAfterPayout;
    var worker := User(Worker(w, r));
    PayoutDone(w, r, closing);
    BookIsSound(w);
    B.PayReviewEffect(w.book, r.task, worker, worker in w.accounts, r.selection, r.key, closing);
  }

  lemma BookIsSound(w: World)
    requires WorldInv(w)
    ensures B.BookInv(w.book) && B.FundsPositive(w.book)
  {
  }

  lemma UnusedAfterPayout(w: World, r: Review, closing: bool, account: Party, suffix: string)
    requires r.submission in w.submissions && suffix != ""
    ensures B.Find(w.book.entries + PayoutEntries(w, r, closing), account, r.key + suffix).Some? <==> Used(w, account, r.key + suffix)
  {
    var (all, key) := (w.book.entries + PayoutEntries(w, r, closing), r.key + suffix);
    assert key != r.key by { assert |key| > |r.key|; }
    assert forall e <- PayoutEntries(w, r, closing) :: e.key != Some(key);
    assert forall e :: e in all <==> e in w.book.entries || e in PayoutEntries(w, r, closing);
    hide PayoutEntries;
    var found := B.Find(all, account, key);
    assert found.Some? ==> found.value in w.book.entries;
  }

  lemma TipGoesThrough(w: World, r: Review, closing: bool, book: B.Book)
    requires WorldInv(w) && r.submission in w.submissions
    requires book == B.Book(w.book.entries + PayoutEntries(w, r, closing), FundsAfterPayout(w, r, closing))
    requires forall account :: B.Balance(book, account) == B.Balance(w.book, account) + PaidOut(w, r, closing, account)
    ensures PayCreditTip(w, book, r, Worker(w, r)).Ok? <==> MayTip(w, r, closing)
    ensures MayTip(w, r, closing) ==> PayCreditTip(w, book, r, Worker(w, r)).value == B.Book(book.entries + TipEntries(w, r), book.funds)
  {
    hide WorldInv, B.Balance, PaidOut, PayoutEntries, FundsAfterPayout;
    if r.tip.Some? && r.reviewer.ByUser? {
      var (from, to) := (User(r.reviewer.user), User(Worker(w, r)));
      UnusedAfterPayout(w, r, closing, from, ":tip-debit");
      UnusedAfterPayout(w, r, closing, to, ":tip-credit");
      var debit := B.Entry(from, B.TaskTip, -(r.tip.value as int), Some(r.task), Some(r.key + ":tip-debit"));
      assert |r.key + ":tip-debit"| < |r.key + ":tip-credit"|;
      LastNotFound(book.entries, debit, to, r.key + ":tip-credit");
    }
  }

  lemma LastNotFound(entries: seq<B.Entry>, e: B.Entry, account: Party, key: Key)
    requires e.key != Some(key)
    ensures B.Find(entries + [e], account, key) == B.Find(entries, account, key)
  {
    assert (entries + [e])[..|entries|] == entries;
  }

  lemma GiftGoesThrough(w: World, r: Review)
    requires r.submission in w.submissions
    ensures PayCollectibleTip(V.Deliver(w.vault, r.task, Worker(w, r)), r, Worker(w, r)).Ok? <==> MayGift(w, r)
  {
  }

  lemma AcceptedExists(w: World, task: TaskId)
    ensures HasAccepted(w, task) <==> !NoneAccepted(w, task)
  {
  }

  /** Payout and tip of a review at once, as both kinds of review pay them. */
  lemma CreditsOfReview(w: World, r: Review, closing: bool)
    requires WorldInv(w) && r.submission in w.submissions
    ensures var (worker, pay) := (User(Worker(w, r)), B.PayReview(w.book, r.task, User(Worker(w, r)), User(Worker(w, r)) in w.accounts, r.selection, r.key, closing));
      && (pay.Ok? <==> MayPay(w, r))
      && (pay.Ok? ==>
            && pay.value.1 == (if Pays(w, r) > 0 then Some(Pays(w, r)) else None)
            && var tip := PayCreditTip(w, pay.value.0, r, Worker(w, r));
            && (tip.Ok? <==> MayTip(w, r, closing))
            && (tip.Ok? ==> tip.value == B.Book(w.book.entries + PayoutEntries(w, r, closing) + TipEntries(w, r), FundsAfterPayout(w, r, closing))))
  {
    hide WorldInv, B.PayReview, PayCreditTip, MayPay, MayTip, PayoutEntries, TipEntries, FundsAfterPayout, B.Balance, PaidOut;
    PayGoesThrough(w, r, closing);
    var worker := User(Worker(w, r));
    var pay := B.PayReview(w.book, r.task, worker, worker in w.accounts, r.selection, r.key, closing);
    if pay.Ok? {
      PayoutDone(w, r, closing);
      forall account { PaidBalance(w, r, closing, account); }
      TipGoesThrough(w, r, closing, pay.value.0);
    }
  }

  lemma RewardGoesThrough(w: World, r: Review)
    requires WorldInv(w) && SubmissionIs(w, r) && r.task in w.tasks
    ensures var paid := PayReward(w, r, w.tasks[r.task], Worker(w, r));
      && (paid.Ok? <==> MayPay(w, r) && (w.tasks[r.task].reward in {CreditReward, BundleReward} ==> Pays(w, r) > 0 || HoldsSome(w, r.task)))
      && (paid.Ok? ==> paid.value.0 == B.PayReview(w.book, r.task, User(Worker(w, r)), User(Worker(w, r)) in w.accounts, r.selection, r.key, true).value.0
                       && paid.value.1 == V.Deliver(w.vault, r.task, Worker(w, r)))
  {
    hide WorldInv, B.PayReview, MayPay, MayTip, V.Deliver, V.HeldBy, HoldsSome;
    CreditsOfReview(w, r, true);
    HeldByIs(w, r.task);
  }

  lemma FirstAcceptGoesThrough(w: World, r: Review)
    requires WorldInv(w) && SubmissionIs(w, r) && r.task in w.tasks
    ensures FirstAccept(w, r, w.tasks[r.task], w.submissions[r.submission]).Ok? <==>
            && r.spendOk && MayPay(w, r) && MayTip(w, r, true) && MayGift(w, r)
            && (w.tasks[r.task].reward in {CreditReward, BundleReward} ==> Pays(w, r) > 0 || HoldsSome(w, r.task))
  {
    hide WorldInv, B.PayReview, PayReward, PayCreditTip, PayCollectibleTip, MayPay, MayTip, MayGift, V.Deliver, HoldsSome, ReviewEvents, SupersededEvents, Supersede, Competing, PayoutEntries, TipEntries, FundsAfterPayout;
    CreditsOfReview(w, r, true);
    RewardGoesThrough(w, r);
    GiftGoesThrough(w, r);
  }

  lemma AcceptGoesThrough(w: World, r: Review)
    requires WorldInv(w)
    ensures AcceptTx(w, r).Ok? <==> MayAccept(w, r)
  {
    hide WorldInv, FirstAccept, MayPay, MayTip, MayGift, HoldsSome;
    if SubmissionIs(w, r) && r.task in w.tasks {
      FirstAcceptGoesThrough(w, r);
      AcceptedExists(w, r.task);
    }
  }

  lemma RejectGoesThrough(w: World, r: Review)
    requires WorldInv(w)
    ensures RejectTx(w, r).Ok? <==> MayReject(w, r)
  {
    hide WorldInv, B.PayReview, PayCreditTip, MayPay, MayTip, PayoutEntries, TipEntries, FundsAfterPayout, ReviewEvents;
    if SubmissionIs(w, r) { CreditsOfReview(w, r, false); }
  }

  /** A command is refused exactly when one of its rules does not hold; every other command goes through. */
  lemma GoesThroughIff(w: World, c: Command)
    requires WorldInv(w)
    ensures !Step(w, c).1.Refused? <==> GoesThrough(w, c)
  {
    hide WorldInv, MayMoveCredits, MayAccept, MayReject, MayRequestChanges, Transact;
    RepliesWhenOk(w, c);
    if KeySlot(c).Some? { CreditsGoThrough(w, c); }
    else if c.Accept? { AcceptGoesThrough(w, c.review); ReviewsTransact(w, c); }
    else if c.Reject? { RejectGoesThrough(w, c.review); ReviewsTransact(w, c); }
    else if c.RequestChanges? { RequestChangesGoesThrough(w, c.review); ReviewsTransact(w, c); }
    else { OthersGoThrough(w, c); }
  }

  lemma OthersGoThrough(w: World, c: Command)
    requires WorldInv(w) && KeySlot(c).None? && !c.Accept? && !c.Reject? && !c.RequestChanges?
    ensures Transact(w, c).Ok? <==> MaySettle(w, c) || MayGrow(w, c) || MayMoveCollectible(w, c) || MayRunCatalog(w, c)
  {
    hide WorldInv, Transact;
    if c.Refund? || c.RefundCollectible? || c.ChangeState? || c.Expire? { SettlingGoesThrough(w, c); }
    else if c.OpenAccount? || c.OrganizationGrant? || c.CreateTask? || c.Submit? || c.FundCollectible? { GrowingGoesThrough(w, c); }
    else if Transfers(c) { TransfersGoThrough(w, c); }
    else { CatalogGoesThrough(w, c); }
  }

  lemma ReviewsTransact(w: World, c: Command)
    requires c.Accept? || c.Reject? || c.RequestChanges?
    ensures Transact(w, c) == match c case Accept(r) => AcceptTx(w, r) case Reject(r) => RejectTx(w, r) case _ => RequestChangesTx(w, c.review)
  {
  }

  lemma RepliesWhenOk(w: World, c: Command)
    ensures Step(w, c).1.Refused? <==> !Transact(w, c).Ok?
  {
    hide B.Find, B.Balance, B.Insert, B.PayReview, V.Deliver, PayCreditTip, PayCollectibleTip, V.EscrowAll;
  }
}
