/**
 The collectible store: escrow, gifts, organization transfers and the life of
 catalog instances, each method one transaction over the shared tables.
 */
module CollectibleStores {
  import opened Prelude
  import opened Economy
  import S = Stores
  import V = Vault

  class CollectibleStore {
    const db: S.Database

    constructor (db: S.Database)
      ensures this.db == db
    {
      this.db := db;
    }

    // ---- escrow ----

    method FundCollectibleReward(funder: UserId, task: TaskId, id: CollectibleId) returns (reply: Reply)
      modifies db
      ensures (db.Snapshot(), reply) == Step(old(db.Snapshot()), FundCollectible(funder, task, id))
    {
      var begin := db.Snapshot();
      var problem := V.EscrowProblem(db.Vault(), id, funder);
      if problem.Some? {
        return Refused(problem.value);
      }
      if task !in db.tasks {
        return Refused(TaskNotFound);
      }
      var t := db.tasks[task];
      if t.creator != funder {
        return Refused(NotTaskOwner);
      }
      if !t.state.Draft? {
        return Refused(TaskNotDraft);
      }
      if t.reward.NoReward? {
        db.tasks := db.tasks[task := t.(reward := Reward.CollectibleReward)];
      } else if t.reward.CreditReward? {
        db.tasks := db.tasks[task := t.(reward := BundleReward)];
      }
      var held := HoldForTask(id, task);
      if !held {
        db.Rollback(begin);
        return Refused(ConstraintViolated);
      }
      assert db.tasks == old(db.tasks)[task := db.tasks[task]];
      reply := Done;
    }

    /** Escrows a validated collectible and records the hold, which only one task may have. */
    method HoldForTask(id: CollectibleId, task: TaskId) returns (held: bool)
      requires id in db.items
      modifies db`items, db`held
      ensures db.items == old(db.items)[id := old(db.items)[id].(state := V.Escrowed)]
      ensures held <==> id !in old(db.held)
      ensures db.held == if held then old(db.held)[id := task] else old(db.held)
    {
      db.items := db.items[id := db.items[id].(state := V.Escrowed)];
      held := id !in db.held;
      if held {
        db.held := db.held[id := task];
      }
    }

    method RefundCollectibleReward(requester: UserId, task: TaskId, implementor: bool) returns (reply: Reply)
      modifies db
      ensures (db.Snapshot(), reply) == Step(old(db.Snapshot()), RefundCollectible(requester, task, implementor))
    {
      var locked := LockRefundable(db.Snapshot(), task, requester, implementor);
      if locked.Refuse? {
        return Refused(locked.reason);
      }
      if db.tasks[task].reward.BundleReward? {
        return Refused(BundleRefundedTogether);
      }
      if V.HeldBy(db.Vault(), task) == {} {
        return Refused(NothingToRefund);
      }
      var ledger := new S.LedgerStore(db);
      ledger.RefundHeldCollectibles(task);
      db.tasks := db.tasks[task := locked.value.(state := Cancelled)];
      reply := Done;
    }

    // ---- changing hands ----

    method GiftCollectible(id: CollectibleId, from: UserId, to: UserId, shared: bool) returns (reply: Reply)
      modifies db
      ensures (db.Snapshot(), reply) == Step(old(db.Snapshot()), Gift(id, from, to, shared))
    {
      if id !in db.items {
        return Refused(CollectibleNotAvailable);
      }
      var c := db.items[id];
      if c.owner == User(to) {
        return Done;
      }
      if c.owner != User(from) {
        return Refused(CollectibleNotAvailable);
      }
      if !c.state.Minted? {
        return Refused(CollectibleNotAvailable);
      }
      if !V.AllowsTip(c.policy) {
        return Refused(PolicyForbids);
      }
      if c.policy.WithinOrganization? {
        if c.scope.None? || !shared {
          return Refused(WrongOrganization);
        }
      }
      db.items := db.items[id := c.(owner := User(to))];
      db.Record(multiset{Event(CollectibleMoved, OnCollectible(id), {from, to})});
      reply := Done;
    }

    method AwardOrganizationCollectible(id: CollectibleId, org: OrgId, to: UserId, member: bool) returns (reply: Reply)
      modifies db
      ensures (db.Snapshot(), reply) == Step(old(db.Snapshot()), AwardMember(id, org, to, member))
    {
      if id !in db.items {
        return Refused(CollectibleNotAvailable);
      }
      var c := db.items[id];
      if !c.owner.Organization? || c.scope != Some(org) {
        return Refused(WrongOrganization);
      }
      if !c.state.Minted? {
        return Refused(CollectibleNotAvailable);
      }
      if !member {
        return Refused(PermissionDenied);
      }
      db.items := db.items[id := c.(owner := User(to), scope := None)];
      db.Record(multiset{Event(CollectibleMoved, OnCollectible(id), {to})});
      reply := Done;
    }

    method TransferToOrganization(id: CollectibleId, from: UserId, org: OrgId, member: bool) returns (reply: Reply)
      modifies db
      ensures (db.Snapshot(), reply) == Step(old(db.Snapshot()), Donate(id, from, org, member))
    {
      if id !in db.items {
        return Refused(CollectibleNotAvailable);
      }
      var c := db.items[id];
      if c.owner != User(from) {
        return Refused(CollectibleNotAvailable);
      }
      if !c.state.Minted? {
        return Refused(CollectibleNotAvailable);
      }
      if !V.AllowsTransfer(c.policy) {
        return Refused(PolicyForbids);
      }
      if c.policy.WithinOrganization? {
        if c.scope != Some(org) || !member {
          return Refused(WrongOrganization);
        }
      }
      db.items := db.items[id := c.(owner := Organization(org), scope := Some(org))];
      db.Record(multiset{Event(CollectibleMoved, OnCollectible(id), {from})});
      reply := Done;
    }

    method TransferFromOrganization(id: CollectibleId, org: OrgId, to: UserId, permitted: bool, told: set<UserId>) returns (reply: Reply)
      modifies db
      ensures (db.Snapshot(), reply) == Step(old(db.Snapshot()), HandOut(id, org, to, permitted, told))
    {
      if !permitted {
        return Refused(PermissionDenied);
      }
      if id !in db.items {
        return Refused(CollectibleNotAvailable);
      }
      var c := db.items[id];
      if !c.owner.Organization? || c.scope != Some(org) {
        return Refused(WrongOrganization);
      }
      if !c.state.Minted? {
        return Refused(CollectibleNotAvailable);
      }
      if !V.AllowsTransfer(c.policy) {
        return Refused(PolicyForbids);
      }
      db.items := db.items[id := c.(owner := User(to), scope := None)];
      db.Record(multiset{Event(CollectibleMoved, OnCollectible(id), {to} + told)});
      reply := Done;
    }

    // ---- catalog instances ----

    /** Mints the next instance: a unique entry needs its live slot free, an edition its next number within the cap. */
    method AwardFromCatalog(id: CollectibleId, slug: V.Slug, owner: Party, scope: Option<OrgId>) returns (reply: Reply)
      modifies db
      ensures (db.Snapshot(), reply) == Step(old(db.Snapshot()), Command.AwardFromCatalog(id, slug, owner, scope))
    {
      if slug !in db.catalog {
        return Refused(EntryNotFound);
      }
      var entry := db.catalog[slug];
      if !entry.available {
        return Refused(EntryUnavailable);
      }
      var edition: Option<nat> := None;
      if entry.kind.Unique? {
        if V.Live(db.Vault(), slug) != {} {
          return Refused(LiveInstanceExists);
        }
      } else if entry.kind.Edition? {
        var next := MaxOf(V.Numbers(db.Vault(), slug)) + 1;
        if entry.cap.Some? && next > entry.cap.value {
          return Refused(CapReached);
        }
        edition := Some(next);
      }
      if id in db.items {
        return Refused(ConstraintViolated);
      }
      db.items := db.items[id := V.Collectible(entry.kind, V.Minted, entry.policy, owner, scope, Some(slug), edition)];
      reply := Done;
    }

    method WithdrawCollectible(id: CollectibleId, told: set<UserId>) returns (reply: Reply)
      modifies db
      ensures (db.Snapshot(), reply) == Step(old(db.Snapshot()), Withdraw(id, told))
    {
      if id !in db.items {
        return Refused(CollectibleNotFound);
      }
      var c := db.items[id];
      if c.catalog.None? {
        return Refused(NotFromCatalog);
      }
      if c.state.Escrowed? {
        return Refused(CollectibleNotAvailable);
      }
      if !c.state.Minted? {
        return Refused(CollectibleNotAvailable);
      }
      db.items := db.items[id := c.(state := V.Withdrawn)];
      db.Record(multiset{Event(CollectibleWithdrawn, OnCollectible(id), Merged(c.owner, told))});
      reply := Done;
    }

    /** The holder joins the draft's recipients when it is a user. */
    function Merged(owner: Party, told: set<UserId>): set<UserId> {
      (if owner.User? then {owner.id} else {}) + told
    }

    method ReleaseCollectible(id: CollectibleId, told: set<UserId>) returns (reply: Reply)
      modifies db
      ensures (db.Snapshot(), reply) == Step(old(db.Snapshot()), Release(id, told))
    {
      if id !in db.items {
        return Refused(CollectibleNotFound);
      }
      var c := db.items[id];
      if !c.state.Withdrawn? {
        return Refused(NotWithdrawn);
      }
      if c.catalog.None? {
        return Refused(NotFromCatalog);
      }
      if c.catalog.value !in db.catalog {
        return Refused(EntryNotFound);
      }
      if db.catalog[c.catalog.value].kind.Unique? {
        if V.Live(db.Vault(), c.catalog.value) != {} {
          return Refused(LiveInstanceExists);
        }
      }
      db.items := db.items[id := c.(state := V.Minted)];
      db.Record(multiset{Event(CollectibleReleased, OnCollectible(id), Merged(c.owner, told))});
      reply := Done;
    }

    method DeleteWithdrawnCollectible(id: CollectibleId) returns (reply: Reply)
      modifies db
      ensures (db.Snapshot(), reply) == Step(old(db.Snapshot()), Delete(id))
    {
      if id in db.held {
        return Refused(CollectibleNotAvailable);
      }
      if id !in db.items || !db.items[id].state.Withdrawn? {
        return Refused(NotWithdrawn);
      }
      db.items := db.items - {id};
      reply := Done;
    }

    method DeleteCatalogEntry(slug: V.Slug) returns (reply: Reply)
      modifies db
      ensures (db.Snapshot(), reply) == Step(old(db.Snapshot()), DeleteEntry(slug))
    {
      if slug !in db.catalog {
        return Refused(EntryNotFound);
      }
      if db.catalog[slug].available {
        return Refused(EntryUnavailable);
      }
      if V.Instances(db.Vault(), slug) != {} {
        return Refused(EntryHasInstances);
      }
      db.catalog := db.catalog - {slug};
      reply := Done;
    }
  }
}
