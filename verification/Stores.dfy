/**
 The stores over the economy's tables. A store method works through its
 transaction statement by statement and rolls the tables back when it refuses;
 each is proved to take exactly the step the economy specifies.
 */
module Stores {
  import opened Prelude
  import opened Economy
  import B = Book
  import V = Vault

  class Database {
    var accounts: set<Party>
    var entries: seq<B.Entry>
    var funds: map<TaskId, B.Fund>
    var items: map<CollectibleId, V.Collectible>
    var held: map<CollectibleId, TaskId>
    var catalog: map<V.Slug, V.CatalogEntry>
    var tasks: map<TaskId, Task>
    var submissions: map<SubmissionId, Submission>
    var events: multiset<Event>

    function Book(): B.Book
      reads this
    {
      B.Book(entries, funds)
    }

    function Vault(): V.Vault
      reads this
    {
      V.Vault(items, held, catalog)
    }

    function Snapshot(): World
      reads this
    {
      World(accounts, Book(), Vault(), tasks, submissions, events)
    }

    constructor ()
      ensures Snapshot() == EMPTY
    {
      accounts, entries, funds := {}, [], map[];
      items, held, catalog := map[], map[], map[];
      tasks, submissions, events := map[], map[], multiset{};
    }

    method Rollback(w: World)
      modifies this
      ensures Snapshot() == w
    {
      accounts, entries, funds := w.accounts, w.book.entries, w.book.funds;
      items, held, catalog := w.vault.items, w.vault.held, w.vault.catalog;
      tasks, submissions, events := w.tasks, w.submissions, w.events;
    }

    method InsertEntry(e: B.Entry) returns (ok: bool)
      modifies this`entries
      ensures ok == B.Insert(old(Book()), e).Ok?
      ensures if ok then B.Insert(old(Book()), e) == Ok(Book()) else Book() == old(Book())
    {
      ok := e.amount != 0 && (e.key.None? || B.Find(entries, e.account, e.key.value).None?);
      if ok {
        entries := entries + [e];
      }
    }

    method Record(recorded: multiset<Event>)
      modifies this`events
      ensures events == old(events) + recorded
    {
      events := events + recorded;
    }
  }

  /** Marking the accepted submission does not change who competed with it. */
  lemma CompetitionUnmoved(w: World, w': World, r: Review)
    requires r.submission in w'.submissions && w'.submissions == w.submissions[r.submission := w'.submissions[r.submission]]
    ensures Competing(w', r) == Competing(w, r) && SupersededEvents(w', r) == SupersededEvents(w, r)
  {
  }

  class LedgerStore {
    const db: Database

    constructor (db: Database)
      ensures this.db == db
    {
      this.db := db;
    }

    // ---- funding ----

    method FundTask(payer: Party, task: TaskId, amount: CreditAmount, key: Key, actor: UserId, spendOk: bool) returns (reply: Reply)
      modifies db
      ensures (db.Snapshot(), reply) == Step(old(db.Snapshot()), Fund(payer, task, amount, key, actor, spendOk))
    {
      var begin := db.Snapshot();
      if payer !in db.accounts {
        return Refused(NoAccount);
      }
      var existing := B.Find(db.entries, payer, key);
      if existing.Some? {
        if !existing.value.kind.TaskFund? || existing.value.task != Some(task) {
          return Refused(KeyReused);
        }
        return Funded(task, payer, -existing.value.amount, true);
      }
      if task !in db.tasks {
        return Refused(TaskNotFound);
      }
      if !Owns(db.tasks[task], payer) {
        return Refused(NotTaskOwner);
      }
      var problem := RequireFundable(task, amount);
      if problem.Some? {
        return Refused(problem.value);
      }
      if !spendOk {
        db.Rollback(begin);
        return Refused(SpendRefused);
      }
      problem := CompleteFunding(task, payer, amount, key);
      if problem.Some? {
        db.Rollback(begin);
        return Refused(problem.value);
      }
      db.Record(multiset{Event(TaskFunded, OnTask(task), {actor, db.tasks[task].creator})});
      reply := Funded(task, payer, amount, false);
    }

    /** Checks the balance, inserts the fund row and the ledger entry. */
    method CompleteFunding(task: TaskId, payer: Party, amount: CreditAmount, key: Key) returns (problem: Option<Reason>)
      modifies db`funds, db`entries
      ensures var spec := B.Allocate(old(db.Book()), task, payer, amount, key);
        if problem.None? then spec == Ok(db.Book()) else spec == Refuse(problem.value)
    {
      if task in db.funds {
        return Some(AlreadyFunded);
      }
      if B.Balance(db.Book(), payer) < amount {
        return Some(InsufficientCredits);
      }
      db.funds := db.funds[task := B.Fund(payer, amount)];
      var inserted := db.InsertEntry(B.Entry(payer, B.TaskFund, -(amount as int), Some(task), Some(key)));
      problem := if inserted then None else Some(ConstraintViolated);
    }

    /** Checks a draft takes these credits and persists the reward kind a first funding declares. */
    method RequireFundable(task: TaskId, amount: CreditAmount) returns (problem: Option<Reason>)
      requires task in db.tasks
      modifies db`tasks
      ensures problem.Some? ==> db.tasks == old(db.tasks) && Fundable(old(db.tasks)[task], amount) == Refuse(problem.value)
      ensures problem.None? ==> Fundable(old(db.tasks)[task], amount).Ok? && db.tasks == old(db.tasks)[task := Fundable(old(db.tasks)[task], amount).value]
    {
      var t := db.tasks[task];
      if !t.state.Draft? {
        return Some(TaskNotDraft);
      }
      if t.reward.CreditReward? || t.reward.BundleReward? {
        if t.declared != amount {
          return Some(AmountMismatch);
        }
      } else {
        db.tasks := db.tasks[task := t.(reward := if t.reward.CollectibleReward? then BundleReward else CreditReward, declared := amount)];
      }
      problem := None;
    }

    // ---- review ----

    method PayReviewFund(task: TaskId, worker: UserId, selection: B.Selection, key: Key, close: bool) returns (paid: Outcome<Option<CreditAmount>>)
      modifies db`entries, db`funds
      ensures var spec := B.PayReview(old(db.Book()), task, User(worker), User(worker) in db.accounts, selection, key, close);
        if paid.Ok? then spec == Ok((db.Book(), paid.value)) else spec == Refuse(paid.reason)
    {
      if selection.NoCredit? {
        return Ok(None);
      }
      if task !in db.funds {
        if selection.Partial? {
          return Refuse(FundMissing);
        }
        return Ok(None);
      }
      var fund := db.funds[task];
      var amount := if selection.Partial? then selection.amount else fund.amount;
      if amount > fund.amount {
        return Refuse(PayoutExceedsFund);
      }
      if User(worker) !in db.accounts {
        return Refuse(NoAccount);
      }
      var inserted := db.InsertEntry(B.Entry(User(worker), B.TaskPayout, amount, Some(task), Some(key)));
      if !inserted || amount <= 0 {
        return Refuse(ConstraintViolated);
      }
      var remaining := fund.amount - amount;
      if close {
        if remaining > 0 {
          inserted := db.InsertEntry(B.Entry(fund.funder, B.TaskRefund, remaining, Some(task), None));
          if !inserted {
            return Refuse(ConstraintViolated);
          }
        }
        db.funds := db.funds - {task};
      } else if remaining == 0 {
        db.funds := db.funds - {task};
      } else {
        db.funds := db.funds[task := fund.(amount := remaining)];
      }
      paid := Ok(Some(amount));
    }

    method PayCreditTip(r: Review, worker: UserId, ghost w: World) returns (problem: Option<Reason>)
      requires w.accounts == db.accounts
      modifies db`entries
      ensures var spec := Economy.PayCreditTip(w, old(db.Book()), r, worker);
        if problem.None? then spec == Ok(db.Book()) else spec == Refuse(problem.value)
    {
      if r.tip.None? {
        return None;
      }
      if r.reviewer.ByOrganization? {
        return Some(OrganizationCannotPay);
      }
      var requester := User(r.reviewer.user);
      if requester !in db.accounts {
        return Some(NoAccount);
      }
      if B.Balance(db.Book(), requester) < r.tip.value {
        return Some(InsufficientCredits);
      }
      if User(worker) !in db.accounts {
        return Some(NoAccount);
      }
      var inserted := db.InsertEntry(B.Entry(requester, B.TaskTip, -(r.tip.value as int), Some(r.task), Some(r.key + ":tip-debit")));
      if !inserted {
        return Some(ConstraintViolated);
      }
      inserted := db.InsertEntry(B.Entry(User(worker), B.TaskTip, r.tip.value, Some(r.task), Some(r.key + ":tip-credit")));
      if !inserted {
        return Some(ConstraintViolated);
      }
      problem := None;
    }

    method PayCollectibleTip(r: Review, worker: UserId) returns (problem: Option<Reason>)
      modifies db`items
      ensures var spec := Economy.PayCollectibleTip(old(db.Vault()), r, worker);
        if problem.None? then spec == Ok(db.Vault()) else spec == Refuse(problem.value)
    {
      if r.gift.None? {
        return None;
      }
      if r.reviewer.ByOrganization? {
        return Some(OrganizationCannotPay);
      }
      var id := r.gift.value;
      if id !in db.items {
        return Some(CollectibleNotAvailable);
      }
      var c := db.items[id];
      if c.owner == User(worker) {
        return None;
      }
      if c.owner != User(r.reviewer.user) || !c.state.Minted? {
        return Some(CollectibleNotAvailable);
      }
      if !V.AllowsTip(c.policy) {
        return Some(PolicyForbids);
      }
      if c.policy.WithinOrganization? && (c.scope.None? || !r.shared) {
        return Some(WrongOrganization);
      }
      db.items := db.items[id := c.(owner := User(worker))];
      problem := None;
    }

    /** Hands every held collectible to the worker, one row at a time, then clears the holds. */
    method PayOutCollectible(task: TaskId, worker: UserId) returns (ids: set<CollectibleId>)
      modifies db`items, db`held
      ensures ids == V.HeldBy(old(db.Vault()), task)
      ensures db.Vault() == V.Deliver(old(db.Vault()), task, worker)
    {
      ids := V.HeldBy(db.Vault(), task);
      var rest := ids;
      while rest != {}
        invariant rest <= ids && db.held == old(db.held)
        invariant db.items == map c | c in old(db.items) ::
                                if c in ids - rest then old(db.items)[c].(state := V.Minted, owner := User(worker)) else old(db.items)[c]
      {
        var c :| c in rest;
        if c in db.items {
          db.items := db.items[c := db.items[c].(state := V.Minted, owner := User(worker))];
        }
        rest := rest - {c};
      }
      assert db.items == V.Deliver(old(db.Vault()), task, worker).items;
      assert V.Clear(db.Vault(), task) == V.Clear(old(db.Vault()), task);
      db.held := V.Clear(db.Vault(), task);
    }

    /** Returns every held collectible to the owner its row still names. */
    method RefundHeldCollectibles(task: TaskId)
      modifies db`items, db`held
      ensures db.Vault() == V.GiveBack(old(db.Vault()), task)
    {
      var ids := V.HeldBy(db.Vault(), task);
      var rest := ids;
      while rest != {}
        invariant rest <= ids && db.held == old(db.held)
        invariant db.items == map c | c in old(db.items) ::
                                if c in ids - rest then old(db.items)[c].(state := V.Minted) else old(db.items)[c]
      {
        var c :| c in rest;
        if c in db.items {
          db.items := db.items[c := db.items[c].(state := V.Minted)];
        }
        rest := rest - {c};
      }
      assert db.items == V.GiveBack(old(db.Vault()), task).items;
      assert V.Clear(db.Vault(), task) == V.Clear(old(db.Vault()), task);
      db.held := V.Clear(db.Vault(), task);
    }

    /** Supersedes every other submission still waiting, drafting one event for each. */
    method SupersedeCompeting(r: Review) returns (drafts: multiset<Event>)
      modifies db`submissions
      ensures db.submissions == Supersede(old(db.submissions), Competing(old(db.Snapshot()), r))
      ensures drafts == multiset(SupersededEvents(old(db.Snapshot()), r))
    {
      var rows := Competing(db.Snapshot(), r);
      var rest := rows;
      drafts := multiset{};
      ghost var told: set<Event> := {};
      while rest != {}
        invariant rest <= rows
        invariant db.submissions == Supersede(old(db.submissions), rows - rest)
        invariant told == set s | s in rows - rest :: Event(SubmissionSuperseded, OnSubmission(r.task, s), {old(db.submissions)[s].worker})
        invariant drafts == multiset(told)
      {
        var s :| s in rest;
        var draft := Event(SubmissionSuperseded, OnSubmission(r.task, s), {db.submissions[s].worker});
        assert rows - (rest - {s}) == (rows - rest) + {s};
        db.submissions := db.submissions[s := db.submissions[s].(state := Superseded)];
        drafts := drafts + multiset{draft};
        told := told + {draft};
        rest := rest - {s};
      }
      assert rows - rest == rows;
    }

    method AcceptSubmission(r: Review) returns (reply: Reply)
      modifies db
      ensures (db.Snapshot(), reply) == Step(old(db.Snapshot()), Accept(r))
    {
      var begin := db.Snapshot();
      var locked := LockForReview(begin, r.task, r.reviewer);
      if locked.Refuse? {
        return Refused(locked.reason);
      }
      var found := FindSubmission(begin, r);
      if found.Refuse? {
        return Refused(found.reason);
      }
      var s := found.value;
      if s.state.Accepted? {
        if s.acceptKey != Some(r.key) {
          return Refused(AcceptedWithOtherKey);
        }
        var payout := FindPayout(db.entries, r.task, r.key);
        return Reviewed(r.submission, s.worker,
                        if payout.Some? && payout.value.amount > 0 then CreditPayout(payout.value.amount) else NoPayout, NoTip, true);
      }
      if !s.state.Submitted? {
        return Refused(SubmissionNotReviewable);
      }
      if !locked.value.state.Open? {
        return Refused(TaskNotOpen);
      }
      if HasAccepted(begin, r.task) {
        return Refused(AlreadyHasAccepted);
      }
      var settled := SettleAccepted(r, locked.value, s);
      if settled.Refuse? {
        db.Rollback(begin);
        return Refused(settled.reason);
      }
      reply := settled.value;
    }

    method PayReward(r: Review, t: Task, worker: UserId) returns (payout: Outcome<Payout>)
      modifies db`entries, db`funds, db`items, db`held
      ensures var spec := Economy.PayReward(old(db.Snapshot()), r, t, worker);
        if payout.Ok? then spec == Ok((db.Book(), db.Vault(), payout.value)) else spec == Refuse(payout.reason)
    {
      var paid := PayReviewFund(r.task, worker, r.selection, r.key, true);
      if paid.Refuse? {
        return Refuse(paid.reason);
      }
      var ids := PayOutCollectible(r.task, worker);
      var outcome := CombinePayouts(paid.value, ids);
      if outcome.NoPayout? && (t.reward.CreditReward? || t.reward.BundleReward?) {
        return Refuse(FundMissing);
      }
      payout := Ok(outcome);
    }

    method PayTips(r: Review, worker: UserId, ghost w: World) returns (problem: Option<Reason>)
      requires w.accounts == db.accounts
      modifies db`entries, db`items
      ensures var spec := Economy.PayTips(w, old(db.Book()), old(db.Vault()), r, worker);
        if problem.None? then spec == Ok((db.Book(), db.Vault())) else spec == Refuse(problem.value)
    {
      if !r.spendOk {
        return Some(SpendRefused);
      }
      problem := PayCreditTip(r, worker, w);
      if problem.None? {
        problem := PayCollectibleTip(r, worker);
      }
    }

    /** The body of a first accept: close, pay, deliver, tip, supersede, record. */
    method SettleAccepted(r: Review, t: Task, s: Submission) returns (reply: Outcome<Reply>)
      requires r.task in db.tasks && db.tasks[r.task] == t && r.submission in db.submissions && db.submissions[r.submission] == s
      modifies db
      ensures var spec := FirstAccept(old(db.Snapshot()), r, t, s);
        if reply.Ok? then spec == Ok((db.Snapshot(), reply.value)) else spec == Refuse(reply.reason)
    {
      hide Economy.PayReward, Economy.PayTips, Supersede, SupersededEvents, ReviewEvents, CombineTips;
      ghost var begin := db.Snapshot();
      var payout := PayReward(r, t, s.worker);
      if payout.Refuse? {
        return Refuse(payout.reason);
      }
      var problem := PayTips(r, s.worker, begin);
      if problem.Some? {
        return Refuse(problem.value);
      }
      var tip := CombineTips(r.tip, r.gift);
      db.tasks := db.tasks[r.task := t.(state := Closed)];
      db.submissions := db.submissions[r.submission := s.(state := Accepted, acceptKey := Some(r.key))];
      CompetitionUnmoved(begin, db.Snapshot(), r);
      var superseded := SupersedeCompeting(r);
      db.Record(ReviewEvents(SubmissionAccepted, r, s.worker, payout.value, tip));
      db.Record(superseded);
      reply := Ok(Reviewed(r.submission, s.worker, payout.value, tip, false));
    }

    method SettleRejected(r: Review, s: Submission) returns (reply: Outcome<Reply>)
      modifies db
      ensures var spec := FirstReject(old(db.Snapshot()), r, s);
        if reply.Ok? then spec == Ok((db.Snapshot(), reply.value)) else spec == Refuse(reply.reason)
    {
      hide B.PayReview, Economy.PayCreditTip, ReviewEvents, CombinePayouts, CombineTips;
      ghost var begin := db.Snapshot();
      var paid := PayReviewFund(r.task, s.worker, r.selection, r.key, false);
      if paid.Refuse? {
        return Refuse(paid.reason);
      }
      if !r.spendOk {
        return Refuse(SpendRefused);
      }
      var problem := PayCreditTip(r, s.worker, begin);
      if problem.Some? {
        return Refuse(problem.value);
      }
      db.submissions := db.submissions[r.submission := s.(state := Rejected, rejectKey := Some(r.key))];
      if r.ban && r.reviewer.ByOrganization? {
        return Refuse(OrganizationCannotPay);
      }
      var payout := CombinePayouts(paid.value, {});
      var tip := CombineTips(r.tip, None);
      db.Record(ReviewEvents(SubmissionRejected, r, s.worker, payout, tip));
      reply := Ok(Reviewed(r.submission, s.worker, payout, tip, false));
    }

    method RejectSubmission(r: Review) returns (reply: Reply)
      modifies db
      ensures (db.Snapshot(), reply) == Step(old(db.Snapshot()), Reject(r))
    {
      var begin := db.Snapshot();
      var locked := LockForReview(begin, r.task, r.reviewer);
      if locked.Refuse? {
        return Refused(locked.reason);
      }
      if !locked.value.state.Open? {
        return Refused(TaskNotOpen);
      }
      var found := FindSubmission(begin, r);
      if found.Refuse? {
        return Refused(found.reason);
      }
      var s := found.value;
      if s.state.Rejected? {
        if s.rejectKey == Some(r.key) {
          return Reviewed(r.submission, s.worker, NoPayout, NoTip, true);
        }
        return Refused(RejectedWithOtherKey);
      }
      if !s.state.Submitted? {
        return Refused(SubmissionNotReviewable);
      }
      var settled := SettleRejected(r, s);
      if settled.Refuse? {
        db.Rollback(begin);
        return Refused(settled.reason);
      }
      reply := settled.value;
    }

    method RequestChanges(r: Review) returns (reply: Reply)
      modifies db
      ensures (db.Snapshot(), reply) == Step(old(db.Snapshot()), Command.RequestChanges(r))
    {
      var locked := LockForReview(db.Snapshot(), r.task, r.reviewer);
      if locked.Refuse? {
        return Refused(locked.reason);
      }
      if !locked.value.state.Open? {
        return Refused(TaskNotOpen);
      }
      var found := FindSubmission(db.Snapshot(), r);
      if found.Refuse? {
        return Refused(found.reason);
      }
      var s := found.value;
      if s.state.ChangesRequested? {
        if s.changesKey == Some(r.key) {
          return Reviewed(r.submission, s.worker, NoPayout, NoTip, true);
        }
        return Refused(ChangesWithOtherKey);
      }
      if !s.state.Submitted? {
        return Refused(SubmissionNotReviewable);
      }
      db.submissions := db.submissions[r.submission := s.(state := ChangesRequested, changesKey := Some(r.key))];
      db.Record(ReviewEvents(SubmissionChangesRequested, r, s.worker, NoPayout, NoTip));
      reply := Reviewed(r.submission, s.worker, NoPayout, NoTip, false);
    }

    // ---- grants, sends, refunds ----

    /** On first verification; a key already on the account makes it a no-op. */
    method GrantSignupCredits(user: UserId) returns (reply: Reply)
      modifies db
      ensures (db.Snapshot(), reply) == Step(old(db.Snapshot()), SignupGrant(user))
    {
      if User(user) !in db.accounts {
        return Refused(NoAccount);
      }
      if B.Find(db.entries, User(user), SignupKey(user)).Some? {
        return Moved(SIGNUP_GRANT, true);
      }
      var inserted := db.InsertEntry(B.Entry(User(user), B.SignupGrant, SIGNUP_GRANT, None, Some(SignupKey(user))));
      if !inserted {
        return Refused(ConstraintViolated);
      }
      reply := Moved(SIGNUP_GRANT, false);
    }

    method GrantCredits(target: Party, amount: CreditAmount, key: Key, audience: set<UserId>) returns (reply: Reply)
      modifies db
      ensures (db.Snapshot(), reply) == Step(old(db.Snapshot()), Grant(target, amount, key, audience))
    {
      if target !in db.accounts {
        return Refused(NoAccount);
      }
      var existing := B.Find(db.entries, target, key);
      if existing.Some? {
        if !existing.value.kind.ManualAdjustment? || existing.value.amount != amount {
          return Refused(KeyReused);
        }
        return Moved(amount, true);
      }
      var inserted := db.InsertEntry(B.Entry(target, B.ManualAdjustment, amount, None, Some(key)));
      if !inserted {
        return Refused(ConstraintViolated);
      }
      db.Record(multiset{Event(CreditGranted, NoSubject, audience)});
      reply := Moved(amount, false);
    }

    method PeerTransfer(source: Party, dest: Party, amount: CreditAmount, key: Key, billing: bool, spendOk: bool, actor: UserId, audience: set<UserId>)
      returns (reply: Reply)
      modifies db
      ensures (db.Snapshot(), reply) == Step(old(db.Snapshot()), Send(source, dest, amount, key, billing, spendOk, actor, audience))
    {
      var begin := db.Snapshot();
      if source == dest {
        return Refused(SelfTransfer);
      }
      if source.Organization? && !billing {
        return Refused(PermissionDenied);
      }
      if source !in db.accounts || dest !in db.accounts {
        return Refused(NoAccount);
      }
      var existing := B.Find(db.entries, source, key + ":send-debit");
      if existing.Some? {
        if !existing.value.kind.PeerTransfer? || existing.value.amount != -(amount as int) {
          return Refused(KeyReused);
        }
        return Moved(amount, true);
      }
      if B.Balance(db.Book(), source) < amount {
        return Refused(InsufficientCredits);
      }
      if !spendOk {
        return Refused(SpendRefused);
      }
      var inserted := db.InsertEntry(B.Entry(source, B.PeerTransfer, -(amount as int), None, Some(key + ":send-debit")));
      if !inserted {
        return Refused(ConstraintViolated);
      }
      inserted := db.InsertEntry(B.Entry(dest, B.PeerTransfer, amount, None, Some(key + ":send-credit")));
      if !inserted {
        db.Rollback(begin);
        return Refused(ConstraintViolated);
      }
      db.Record(multiset{Event(CreditsSent, NoSubject, {actor} + audience)});
      reply := Moved(amount, false);
    }

    method RefundTask(requester: UserId, task: TaskId, key: Key, implementor: bool, told: set<UserId>) returns (reply: Reply)
      modifies db
      ensures (db.Snapshot(), reply) == Step(old(db.Snapshot()), Refund(requester, task, key, implementor, told))
    {
      var locked := LockRefundable(db.Snapshot(), task, requester, implementor);
      if locked.Refuse? {
        return Refused(locked.reason);
      }
      var keyExists := KeyOnTask(db.entries, task, key);
      if task !in db.funds {
        if !keyExists {
          return Refused(NothingToRefund);
        }
        var prior := FindRefund(db.entries, task, key);
        if prior.None? {
          return Refused(KeyReused);
        }
        return Refunded(prior.value.account, prior.value.amount, true);
      }
      var fund := db.funds[task];
      if !keyExists {
        keyExists := B.Find(db.entries, fund.funder, key).Some?;
      }
      if keyExists {
        return Refused(KeyReused);
      }
      var inserted := db.InsertEntry(B.Entry(fund.funder, B.TaskRefund, fund.amount, Some(task), Some(key)));
      if !inserted {
        return Refused(ConstraintViolated);
      }
      db.funds := db.funds - {task};
      RefundHeldCollectibles(task);
      db.tasks := db.tasks[task := locked.value.(state := Cancelled)];
      db.Record(multiset{Event(TaskCancelled, OnTask(task), {requester} + told)});
      reply := Refunded(fund.funder, fund.amount, false);
    }

    /** Spendable credits, folded over the account's entries, and allocated ones, over the funds it put up. */
    method Balance(owner: Party) returns (spendable: int, inTasks: int)
      ensures spendable == B.Balance(db.Book(), owner) && inTasks == B.AllocatedBy(db.Book(), owner)
    {
      spendable := 0;
      var i := 0;
      while i < |db.entries|
        invariant 0 <= i <= |db.entries|
        invariant spendable == B.Total(db.entries[..i], B.OnAccount(owner))
      {
        assert db.entries[..i + 1] == db.entries[..i] + [db.entries[i]];
        B.TotalAppend(db.entries[..i], db.entries[i], B.OnAccount(owner));
        if db.entries[i].account == owner {
          spendable := spendable + db.entries[i].amount;
        }
        i := i + 1;
      }
      assert db.entries[..i] == db.entries;
      inTasks := 0;
      var rest := B.FundedBy(db.funds, owner);
      while rest != {}
        invariant rest <= db.funds.Keys
        invariant inTasks + B.SumOver(db.funds, rest) == B.AllocatedBy(db.Book(), owner)
      {
        var t :| t in rest;
        B.SumPick(db.funds, rest, t);
        inTasks := inTasks + db.funds[t].amount;
        rest := rest - {t};
      }
    }

    /**
     What a task holds: all that was ever funded less all that was paid out and
     refunded, as the ledger has it, and nothing exactly when it has no fund.
     */
    method TaskAllocatedCredits(task: TaskId) returns (credits: int)
      ensures credits == B.Held(db.Book(), task)
      ensures B.FundsAgree(db.Book()) ==>
        credits == -B.Total(db.entries, B.OfKind(B.TaskFund, task)) - B.Total(db.entries, B.OfKind(B.TaskPayout, task))
                   - B.Total(db.entries, B.OfKind(B.TaskRefund, task))
      ensures B.FundsPositive(db.Book()) ==> credits >= 0 && (credits == 0 <==> task !in db.funds)
    {
      credits := 0;
      if task in db.funds {
        credits := db.funds[task].amount;
      }
      B.FundingAccounted(db.entries, task);
      assert B.FundsAgree(db.Book()) ==> B.Held(db.Book(), task) == -B.Total(db.entries, B.OnTask(task));
    }
  }
}
