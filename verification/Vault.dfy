/**
 The collectible vault: the collectibles table, the holds a task has on them
 (task_fund_collectibles, unique per collectible), and the award catalog.
 */
module Vault {
  import opened Prelude

  datatype Policy = PayoutOnly | BetweenUsers | WithinOrganization | IssuerControlled

  predicate AllowsTip(p: Policy) {
    p.BetweenUsers? || p.WithinOrganization?
  }

  predicate AllowsRewardPayout(p: Policy) {
    !p.IssuerControlled?
  }

  predicate AllowsTransfer(p: Policy) {
    p.BetweenUsers? || p.WithinOrganization?
  }

  datatype Kind = Unique | Edition | Badge
  datatype State = Minted | Escrowed | Withdrawn

  type Slug = string

  datatype Collectible = Collectible(kind: Kind, state: State, policy: Policy, owner: Party, scope: Option<OrgId>,
                                     catalog: Option<Slug>, edition: Option<nat>)

  datatype CatalogEntry = CatalogEntry(kind: Kind, policy: Policy, cap: Option<int>, available: bool)

  datatype Vault = Vault(items: map<CollectibleId, Collectible>, held: map<CollectibleId, TaskId>, catalog: map<Slug, CatalogEntry>)

  // ---- escrow ----

  function Put(v: Vault, id: CollectibleId, c: Collectible): Vault {
    v.(items := v.items[id := c])
  }

  /** Why `funder` cannot put this collectible up as a reward, if so. */
  function EscrowProblem(v: Vault, id: CollectibleId, funder: UserId): Option<Reason> {
    if id !in v.items then Some(CollectibleNotFound)
    else if v.items[id].owner != User(funder) then Some(NotCollectibleOwner)
    else if !v.items[id].state.Minted? then Some(CollectibleNotAvailable)
    else if !AllowsRewardPayout(v.items[id].policy) then Some(PolicyForbids)
    else None
  }

  function Escrow(v: Vault, id: CollectibleId, funder: UserId, task: TaskId): Outcome<Vault> {
    var problem := EscrowProblem(v, id, funder);
    if problem.Some? then Refuse(problem.value)
    else if id in v.held then Refuse(ConstraintViolated)
    else Ok(Put(v, id, v.items[id].(state := Escrowed)).(held := v.held[id := task]))
  }

  function EscrowAll(v: Vault, ids: seq<CollectibleId>, funder: UserId, task: TaskId): Outcome<Vault> {
    if ids == [] then Ok(v)
    else
      var before :- EscrowAll(v, ids[..|ids| - 1], funder, task);
      Escrow(before, ids[|ids| - 1], funder, task)
  }

  function HeldBy(v: Vault, task: TaskId): set<CollectibleId> {
    set c | c in v.held && v.held[c] == task
  }

  function Clear(v: Vault, task: TaskId): map<CollectibleId, TaskId> {
    map c | c in v.held && v.held[c] != task :: v.held[c]
  }

  /** Accept: every held collectible becomes the worker's. */
  function Deliver(v: Vault, task: TaskId, worker: UserId): Vault {
    v.(items := map c | c in v.items :: if c in HeldBy(v, task) then v.items[c].(state := Minted, owner := User(worker)) else v.items[c],
    held := Clear(v, task))
  }

  /** Refund: every held collectible returns to its recorded owner, the funder. */
  function GiveBack(v: Vault, task: TaskId): Vault {
    v.(items := map c | c in v.items :: if c in HeldBy(v, task) then v.items[c].(state := Minted) else v.items[c],
    held := Clear(v, task))
  }

  // ---- transfers ----

  /** A gift or a review tip between users; `shared` says both are active members of the collectible's organization. */
  function Gift(v: Vault, id: CollectibleId, from: UserId, to: UserId, shared: bool): Outcome<(Vault, bool)> {
    if id !in v.items then Refuse(CollectibleNotAvailable)
    else
      var c := v.items[id];
      if c.owner == User(to) then Ok((v, false))
      else if c.owner != User(from) || !c.state.Minted? then Refuse(CollectibleNotAvailable)
      else if !AllowsTip(c.policy) then Refuse(PolicyForbids)
      else if c.policy.WithinOrganization? && (c.scope.None? || !shared) then Refuse(WrongOrganization)
      else Ok((Put(v, id, c.(owner := User(to))), true))
  }

  /** An organization hands one of its collectibles to a member; the transfer policy is not consulted. */
  function AwardMember(v: Vault, id: CollectibleId, org: OrgId, to: UserId, member: bool): Outcome<Vault> {
    if id !in v.items then Refuse(CollectibleNotAvailable)
    else
      var c := v.items[id];
      if !c.owner.Organization? || c.scope != Some(org) then Refuse(WrongOrganization)
      else if !c.state.Minted? then Refuse(CollectibleNotAvailable)
      else if !member then Refuse(PermissionDenied)
      else Ok(Put(v, id, c.(owner := User(to), scope := None)))
  }

  function Donate(v: Vault, id: CollectibleId, from: UserId, org: OrgId, member: bool): Outcome<Vault> {
    if id !in v.items then Refuse(CollectibleNotAvailable)
    else
      var c := v.items[id];
      if c.owner != User(from) || !c.state.Minted? then Refuse(CollectibleNotAvailable)
      else if !AllowsTransfer(c.policy) then Refuse(PolicyForbids)
      else if c.policy.WithinOrganization? && (c.scope != Some(org) || !member) then Refuse(WrongOrganization)
      else Ok(Put(v, id, c.(owner := Organization(org), scope := Some(org))))
  }

  function HandOut(v: Vault, id: CollectibleId, org: OrgId, to: UserId, permitted: bool): Outcome<Vault> {
    if !permitted then Refuse(PermissionDenied)
    else if id !in v.items then Refuse(CollectibleNotAvailable)
    else
      var c := v.items[id];
      if !c.owner.Organization? || c.scope != Some(org) then Refuse(WrongOrganization)
      else if !c.state.Minted? then Refuse(CollectibleNotAvailable)
      else if !AllowsTransfer(c.policy) then Refuse(PolicyForbids)
      else Ok(Put(v, id, c.(owner := User(to), scope := None)))
  }

  // ---- the catalog ----

  predicate CapCoherent(e: CatalogEntry) {
    match e.kind
    case Unique => e.cap == Some(1)
    case Edition => e.cap.Some? && e.cap.value >= 1
    case Badge => e.cap.None?
  }

  function AddEntry(v: Vault, slug: Slug, e: CatalogEntry): Outcome<Vault> {
    if !CapCoherent(e) then Refuse(BadCap)
    else if slug in v.catalog then Refuse(AlreadyExists)
    else Ok(v.(catalog := v.catalog[slug := e]))
  }

  /** Withdraws (or, with `available`, releases) a catalog entry; only the other state may flip. */
  function FlipEntry(v: Vault, slug: Slug, available: bool): Outcome<Vault> {
    if slug !in v.catalog || v.catalog[slug].available == available then Refuse(EntryUnavailable)
    else Ok(v.(catalog := v.catalog[slug := v.catalog[slug].(available := available)]))
  }

  function Instances(v: Vault, slug: Slug): set<CollectibleId> {
    set c | c in v.items && v.items[c].catalog == Some(slug)
  }

  function Live(v: Vault, slug: Slug): set<CollectibleId> {
    set c | c in Instances(v, slug) && !v.items[c].state.Withdrawn?
  }

  function DeleteEntry(v: Vault, slug: Slug): Outcome<Vault> {
    if slug !in v.catalog then Refuse(EntryNotFound)
    else if v.catalog[slug].available then Refuse(EntryUnavailable)
    else if Instances(v, slug) != {} then Refuse(EntryHasInstances)
    else Ok(v.(catalog := v.catalog - {slug}))
  }

  function Numbers(v: Vault, slug: Slug): set<nat> {
    set c | c in Instances(v, slug) && v.items[c].edition.Some? :: v.items[c].edition.value
  }

  function Award(v: Vault, id: CollectibleId, slug: Slug, owner: Party, scope: Option<OrgId>): Outcome<Vault> {
    if slug !in v.catalog then Refuse(EntryNotFound)
    else
      var e := v.catalog[slug];
      var next := MaxOf(Numbers(v, slug)) + 1;
      if !e.available then Refuse(EntryUnavailable)
      else if e.kind.Unique? && Live(v, slug) != {} then Refuse(LiveInstanceExists)
      else if e.kind.Edition? && e.cap.Some? && next > e.cap.value then Refuse(CapReached)
      else if id in v.items then Refuse(ConstraintViolated)
      else
        var edition := if e.kind.Edition? then Some(next) else None;
        Ok(Put(v, id, Collectible(e.kind, Minted, e.policy, owner, scope, Some(slug), edition)))
  }

  /** A custom mint carries no catalog reference. */
  function MintCustom(v: Vault, id: CollectibleId, kind: Kind, policy: Policy, owner: Party, scope: Option<OrgId>): Outcome<Vault> {
    if id in v.items then Refuse(ConstraintViolated)
    else Ok(Put(v, id, Collectible(kind, Minted, policy, owner, scope, None, None)))
  }

  function Withdraw(v: Vault, id: CollectibleId): Outcome<Vault> {
    if id !in v.items then Refuse(CollectibleNotFound)
    else if v.items[id].catalog.None? then Refuse(NotFromCatalog)
    else if !v.items[id].state.Minted? then Refuse(CollectibleNotAvailable)
    else Ok(Put(v, id, v.items[id].(state := Withdrawn)))
  }

  function Release(v: Vault, id: CollectibleId): Outcome<Vault> {
    if id !in v.items then Refuse(CollectibleNotFound)
    else
      var c := v.items[id];
      if !c.state.Withdrawn? then Refuse(NotWithdrawn)
      else if c.catalog.None? then Refuse(NotFromCatalog)
      else if c.catalog.value !in v.catalog then Refuse(EntryNotFound)
      else if v.catalog[c.catalog.value].kind.Unique? && Live(v, c.catalog.value) != {} then Refuse(LiveInstanceExists)
      else Ok(Put(v, id, c.(state := Minted)))
  }

  function Delete(v: Vault, id: CollectibleId): Outcome<Vault> {
    if id in v.held then Refuse(CollectibleNotAvailable)
    else if id !in v.items || !v.items[id].state.Withdrawn? then Refuse(NotWithdrawn)
    else Ok(v.(items := v.items - {id}))
  }

  // ---- the invariant ----

  /** Escrowed exactly when held; and what is held belongs to a user whose policy allows the payout. */
  ghost predicate EscrowInv(v: Vault) {
    && (forall c :: c in v.held <==> c in v.items && v.items[c].state.Escrowed?)
    && (forall c <- v.held :: v.items[c].owner.User? && AllowsRewardPayout(v.items[c].policy))
  }

  ghost predicate InstanceOk(v: Vault, c: Collectible) {
    && (c.catalog.None? ==> !c.state.Withdrawn?)
    && (c.catalog.Some? ==>
          && c.catalog.value in v.catalog
          && var e := v.catalog[c.catalog.value];
          && c.kind == e.kind
          && (c.kind.Edition? ==> c.edition.Some? && e.cap.Some? && 1 <= c.edition.value <= e.cap.value))
  }

  /** Two instances of one entry never share an edition number, nor are both live when the entry is unique. */
  ghost predicate Apart(c: Collectible, d: Collectible) {
    c.catalog.Some? && c.catalog == d.catalog ==>
      && (c.kind.Edition? ==> c.edition != d.edition)
      && (c.kind.Unique? ==> c.state.Withdrawn? || d.state.Withdrawn?)
  }

  ghost predicate CatalogInv(v: Vault) {
    && (forall s <- v.catalog :: CapCoherent(v.catalog[s]))
    && (forall c <- v.items :: InstanceOk(v, v.items[c]))
    && (forall c, d | c in v.items && d in v.items && c != d :: Apart(v.items[c], v.items[d]))
  }

  ghost predicate VaultInv(v: Vault) {
    EscrowInv(v) && CatalogInv(v)
  }

  // ---- every operation keeps it ----

  /** Instances keep their identity, and none that was withdrawn comes back. */
  ghost predicate Tame(v: Vault, w: Vault) {
    && w.catalog == v.catalog
    && (forall c <- w.items ::
          && c in v.items
          && var (old_, new_) := (v.items[c], w.items[c]);
          && new_.kind == old_.kind && new_.catalog == old_.catalog && new_.edition == old_.edition
          && (new_.state.Withdrawn? <== old_.state.Withdrawn?)
          && (new_.state.Withdrawn? ==> new_.catalog.Some?))
  }

  lemma TameKeeps(v: Vault, w: Vault)
    requires CatalogInv(v) && Tame(v, w)
    ensures CatalogInv(w)
  {
    forall c <- w.items ensures InstanceOk(w, w.items[c]) {
      assert InstanceOk(v, v.items[c]);
    }
    forall c, d | c in w.items && d in w.items && c != d ensures Apart(w.items[c], w.items[d]) {
      assert Apart(v.items[c], v.items[d]);
    }
  }

  lemma EscrowKeeps(v: Vault, id: CollectibleId, funder: UserId, task: TaskId)
    requires VaultInv(v) && Escrow(v, id, funder, task).Ok?
    ensures VaultInv(Escrow(v, id, funder, task).value)
  {
    TameKeeps(v, Escrow(v, id, funder, task).value);
  }

  lemma {:induction false} EscrowAllKeeps(v: Vault, ids: seq<CollectibleId>, funder: UserId, task: TaskId)
    requires VaultInv(v) && EscrowAll(v, ids, funder, task).Ok?
    ensures VaultInv(EscrowAll(v, ids, funder, task).value)
  {
    if ids != [] {
      var n := |ids| - 1;
      EscrowAllKeeps(v, ids[..n], funder, task);
      EscrowKeeps(EscrowAll(v, ids[..n], funder, task).value, ids[n], funder, task);
    }
  }

  /** Everything named is taken from the funder and held by the task; nothing else changes. */
  lemma {:induction false} EscrowAllEffect(v: Vault, ids: seq<CollectibleId>, funder: UserId, task: TaskId)
    requires EscrowAll(v, ids, funder, task).Ok?
    ensures var w := EscrowAll(v, ids, funder, task).value;
      && w.catalog == v.catalog
      && w.items.Keys == v.items.Keys
      && (forall c <- ids :: c in v.items && c !in v.held && v.items[c].owner == User(funder))
      && (forall c <- v.items :: w.items[c] == if c in ids then v.items[c].(state := Escrowed) else v.items[c])
      && (forall c :: c in w.held <==> c in v.held || c in ids)
      && (forall c <- w.held :: w.held[c] == if c in ids then task else v.held[c])
  {
    if ids != [] {
      var n := |ids| - 1;
      EscrowAllEffect(v, ids[..n], funder, task);
      assert forall c :: c in ids <==> c in ids[..n] || c == ids[n];
    }
  }

  lemma DeliverKeeps(v: Vault, task: TaskId, worker: UserId)
    requires VaultInv(v)
    ensures VaultInv(Deliver(v, task, worker)) && HeldBy(Deliver(v, task, worker), task) == {}
  {
    TameKeeps(v, Deliver(v, task, worker));
  }

  lemma GiveBackKeeps(v: Vault, task: TaskId)
    requires VaultInv(v)
    ensures VaultInv(GiveBack(v, task)) && HeldBy(GiveBack(v, task), task) == {}
  {
    TameKeeps(v, GiveBack(v, task));
  }

  /** Changing only who owns a collectible that is not escrowed is harmless. */
  lemma ReownKeeps(v: Vault, id: CollectibleId, owner: Party, scope: Option<OrgId>)
    requires VaultInv(v) && id in v.items && v.items[id].state.Minted?
    ensures VaultInv(Put(v, id, v.items[id].(owner := owner, scope := scope)))
  {
    assert InstanceOk(v, v.items[id]);
    forall c <- v.items ensures InstanceOk(v, v.items[c]) {}
    TameKeeps(v, Put(v, id, v.items[id].(owner := owner, scope := scope)));
  }

  lemma EntriesKeep(v: Vault, slug: Slug, e: CatalogEntry, available: bool)
    requires VaultInv(v)
    ensures var r := AddEntry(v, slug, e); r.Ok? ==> VaultInv(r.value) && r.value.held == v.held
    ensures var r := FlipEntry(v, slug, available); r.Ok? ==> VaultInv(r.value) && r.value.held == v.held
    ensures var r := DeleteEntry(v, slug); r.Ok? ==> VaultInv(r.value) && r.value.held == v.held
  {
    var r := DeleteEntry(v, slug);
    if r.Ok? {
      forall c <- v.items ensures InstanceOk(r.value, v.items[c]) {
        assert InstanceOk(v, v.items[c]);
        assert c !in Instances(v, slug);
      }
    }
    forall c <- v.items ensures InstanceOk(v, v.items[c]) {}
  }

  lemma AwardKeeps(v: Vault, id: CollectibleId, slug: Slug, owner: Party, scope: Option<OrgId>)
    requires VaultInv(v) && Award(v, id, slug, owner, scope).Ok?
    ensures VaultInv(Award(v, id, slug, owner, scope).value)
  {
    var w := Award(v, id, slug, owner, scope).value;
    forall c | c in v.items ensures Apart(v.items[c], w.items[id]) && Apart(w.items[id], v.items[c]) {
      if v.items[c].catalog == Some(slug) {
        assert InstanceOk(v, v.items[c]);
        assert c in Instances(v, slug);
        if v.items[c].kind.Edition? {
          assert v.items[c].edition.value in Numbers(v, slug);
        }
        if !v.items[c].state.Withdrawn? {
          assert c in Live(v, slug);
        }
      }
    }
  }

  lemma MintKeeps(v: Vault, id: CollectibleId, kind: Kind, policy: Policy, owner: Party, scope: Option<OrgId>)
    requires VaultInv(v) && MintCustom(v, id, kind, policy, owner, scope).Ok?
    ensures VaultInv(MintCustom(v, id, kind, policy, owner, scope).value)
  {
    var w := MintCustom(v, id, kind, policy, owner, scope).value;
    forall c, d | c in w.items && d in w.items && c != d ensures Apart(w.items[c], w.items[d]) {
      if c != id && d != id {
        assert Apart(v.items[c], v.items[d]);
      }
    }
    forall c <- w.items ensures InstanceOk(w, w.items[c]) {
      assert c != id ==> InstanceOk(v, v.items[c]);
    }
  }

  lemma ReleaseKeeps(v: Vault, id: CollectibleId)
    requires VaultInv(v) && Release(v, id).Ok?
    ensures VaultInv(Release(v, id).value)
  {
    var w := Release(v, id).value;
    assert InstanceOk(v, v.items[id]);
    forall c, d | c in w.items && d in w.items && c != d ensures Apart(w.items[c], w.items[d]) {
      assert Apart(v.items[c], v.items[d]);
      var other := if c == id then d else c;
      if other != id && v.items[other].catalog == v.items[id].catalog && !v.items[other].state.Withdrawn? {
        assert other in Live(v, v.items[id].catalog.value);
      }
    }
    forall c <- w.items ensures InstanceOk(w, w.items[c]) {
      assert InstanceOk(v, v.items[c]);
    }
  }

  lemma LifecycleKeeps(v: Vault, id: CollectibleId)
    requires VaultInv(v)
    ensures var r := Withdraw(v, id); r.Ok? ==> VaultInv(r.value) && r.value.held == v.held
    ensures var r := Release(v, id); r.Ok? ==> VaultInv(r.value) && r.value.held == v.held
    ensures var r := Delete(v, id); r.Ok? ==> VaultInv(r.value) && r.value.held == v.held
  {
    if Withdraw(v, id).Ok? { TameKeeps(v, Withdraw(v, id).value); }
    if Release(v, id).Ok? { ReleaseKeeps(v, id); }
    if Delete(v, id).Ok? { TameKeeps(v, Delete(v, id).value); }
  }

  // ---- what undoes what ----

  /** A withdrawn instance can be released again at once, which restores the vault. */
  lemma ReleaseUndoesWithdraw(v: Vault, id: CollectibleId)
    requires VaultInv(v) && Withdraw(v, id).Ok?
    ensures Release(Withdraw(v, id).value, id) == Ok(v)
  {
    var (w, c) := (Withdraw(v, id).value, v.items[id]);
    assert InstanceOk(v, c);
    if v.catalog[c.catalog.value].kind.Unique? {
      forall d | d in v.items && d != id ensures v.items[d].catalog == c.catalog ==> v.items[d].state.Withdrawn? {
        assert Apart(v.items[d], c);
      }
      assert Live(w, c.catalog.value) == {};
    }
    assert w.items[id := c] == v.items;
  }

  /** Withdrawing and deleting an awarded instance restores the vault, so the next award takes its number again. */
  lemma DeleteUndoesAward(v: Vault, id: CollectibleId, slug: Slug, owner: Party, scope: Option<OrgId>)
    requires VaultInv(v) && Award(v, id, slug, owner, scope).Ok?
    ensures var w := Withdraw(Award(v, id, slug, owner, scope).value, id); w.Ok? && Delete(w.value, id) == Ok(v)
  {
    var w := Withdraw(Award(v, id, slug, owner, scope).value, id).value;
    assert id !in v.held;
    assert w.items - {id} == v.items;
  }

  /** A new entry can be withdrawn and deleted at once: no instance can refer to an entry that did not exist. */
  lemma DeleteUndoesAddEntry(v: Vault, slug: Slug, e: CatalogEntry)
    requires VaultInv(v) && e.available && AddEntry(v, slug, e).Ok?
    ensures var w := FlipEntry(AddEntry(v, slug, e).value, slug, false); w.Ok? && DeleteEntry(w.value, slug) == Ok(v)
  {
    var w := FlipEntry(AddEntry(v, slug, e).value, slug, false).value;
    forall c | c in v.items ensures v.items[c].catalog != Some(slug) {
      assert InstanceOk(v, v.items[c]);
    }
    assert w.catalog - {slug} == v.catalog;
  }

  /** Giving back what a task just escrowed restores the vault, if it held nothing before. */
  lemma GiveBackUndoesEscrow(v: Vault, ids: seq<CollectibleId>, funder: UserId, task: TaskId)
    requires VaultInv(v) && HeldBy(v, task) == {} && EscrowAll(v, ids, funder, task).Ok?
    ensures GiveBack(EscrowAll(v, ids, funder, task).value, task) == v
  {
    var w := EscrowAll(v, ids, funder, task).value;
    EscrowAllEffect(v, ids, funder, task);
    forall c | c in v.held ensures v.held[c] != task {
      assert c !in HeldBy(v, task);
    }
    assert HeldBy(w, task) == set c | c in ids;
    EscrowAllWasMinted(v, ids, funder, task);
    assert GiveBack(w, task).items == v.items;
    assert GiveBack(w, task).held == v.held;
  }

  lemma {:induction false} EscrowAllWasMinted(v: Vault, ids: seq<CollectibleId>, funder: UserId, task: TaskId)
    requires EscrowAll(v, ids, funder, task).Ok?
    ensures forall c <- ids :: c in v.items && v.items[c].state.Minted?
  {
    if ids != [] {
      var n := |ids| - 1;
      EscrowAllWasMinted(v, ids[..n], funder, task);
      EscrowAllEffect(v, ids[..n], funder, task);
      assert forall c :: c in ids <==> c in ids[..n] || c == ids[n];
    }
  }

  // ---- changing hands ----

  /** Policies are fixed, and a user's collectible only leaves them freely: unescrowed and under a transferable policy. */
  ghost predicate HandsFreely(v: Vault, w: Vault) {
    forall c | c in v.items && c in w.items ::
      && w.items[c].policy == v.items[c].policy
      && (v.items[c].owner.User? && w.items[c].owner != v.items[c].owner ==> v.items[c].state.Minted? && AllowsTransfer(v.items[c].policy))
  }

  lemma TransfersHandFreely(v: Vault, id: CollectibleId, from: UserId, to: UserId, org: OrgId, ok: bool)
    ensures Gift(v, id, from, to, ok).Ok? ==> HandsFreely(v, Gift(v, id, from, to, ok).value.0)
    ensures AwardMember(v, id, org, to, ok).Ok? ==> HandsFreely(v, AwardMember(v, id, org, to, ok).value)
    ensures Donate(v, id, from, org, ok).Ok? ==> HandsFreely(v, Donate(v, id, from, org, ok).value)
    ensures HandOut(v, id, org, to, ok).Ok? ==> HandsFreely(v, HandOut(v, id, org, to, ok).value)
  {
  }

  /** One collectible is its receiver's, minted if it changed at all, and nothing else is different. */
  ghost predicate MovesOne(v: Vault, w: Vault, id: CollectibleId, to: Party) {
    && w.held == v.held && w.catalog == v.catalog && w.items.Keys == v.items.Keys
    && id in v.items && w.items[id].owner == to
    && (w != v ==> v.items[id].state.Minted? && w.items[id].state.Minted?)
    && (forall c <- v.items :: c != id ==> w.items[c] == v.items[c])
  }

  lemma TransfersMoveOne(v: Vault, id: CollectibleId, from: UserId, to: UserId, org: OrgId, ok: bool)
    ensures Gift(v, id, from, to, ok).Ok? ==> MovesOne(v, Gift(v, id, from, to, ok).value.0, id, User(to))
    ensures AwardMember(v, id, org, to, ok).Ok? ==> MovesOne(v, AwardMember(v, id, org, to, ok).value, id, User(to))
    ensures Donate(v, id, from, org, ok).Ok? ==> MovesOne(v, Donate(v, id, from, org, ok).value, id, Organization(org))
    ensures HandOut(v, id, org, to, ok).Ok? ==> MovesOne(v, HandOut(v, id, org, to, ok).value, id, User(to))
  {
  }

  lemma LifecycleHandsFreely(v: Vault, id: CollectibleId)
    ensures Withdraw(v, id).Ok? ==> HandsFreely(v, Withdraw(v, id).value)
    ensures Release(v, id).Ok? ==> HandsFreely(v, Release(v, id).value)
    ensures Delete(v, id).Ok? ==> HandsFreely(v, Delete(v, id).value)
  {
  }

  lemma MintingHandsFreely(v: Vault, id: CollectibleId, kind: Kind, policy: Policy, owner: Party, scope: Option<OrgId>, slug: Slug)
    ensures MintCustom(v, id, kind, policy, owner, scope).Ok? ==> HandsFreely(v, MintCustom(v, id, kind, policy, owner, scope).value)
    ensures Award(v, id, slug, owner, scope).Ok? ==> HandsFreely(v, Award(v, id, slug, owner, scope).value)
  {
  }

  lemma EscrowHandsFreely(v: Vault, ids: seq<CollectibleId>, id: CollectibleId, funder: UserId, task: TaskId)
    ensures Escrow(v, id, funder, task).Ok? ==> HandsFreely(v, Escrow(v, id, funder, task).value)
    ensures EscrowAll(v, ids, funder, task).Ok? ==> HandsFreely(v, EscrowAll(v, ids, funder, task).value)
    ensures HandsFreely(v, GiveBack(v, task))
  {
    if EscrowAll(v, ids, funder, task).Ok? { EscrowAllEffect(v, ids, funder, task); }
  }

  // ---- what the catalog invariant buys ----

  lemma UpTo(cap: nat, s: set<nat>)
    requires forall x <- s :: 1 <= x <= cap
    ensures |s| <= cap
  {
    if cap == 0 {
      assert s == {};
    } else {
      UpTo(cap - 1, s - {cap});
      if cap in s { assert |s| == |s - {cap}| + 1; } else { assert s - {cap} == s; }
    }
  }

  lemma ImageSize(v: Vault, ids: set<CollectibleId>, numbers: set<nat>)
    requires CatalogInv(v) && ids <= v.items.Keys
    requires forall c <- ids :: v.items[c].kind.Edition? && v.items[c].catalog.Some? && v.items[c].edition.Some? && v.items[c].edition.value in numbers
    requires forall c, d | c in ids && d in ids :: v.items[c].catalog == v.items[d].catalog
    ensures |ids| <= |numbers|
  {
    if ids != {} {
      var c :| c in ids;
      var n := v.items[c].edition.value;
      forall d | d in ids - {c} ensures v.items[d].edition.value in numbers - {n} {
        assert Apart(v.items[c], v.items[d]);
      }
      ImageSize(v, ids - {c}, numbers - {n});
    }
  }

  /** A unique entry has at most one live instance; an edition entry at most `cap` instances, numbered apart within 1..cap. */
  lemma CatalogBounds(v: Vault, slug: Slug)
    requires VaultInv(v) && slug in v.catalog
    ensures v.catalog[slug].kind.Unique? ==> |Live(v, slug)| <= 1
    ensures v.catalog[slug].kind.Edition? ==> v.catalog[slug].cap.Some? && |Instances(v, slug)| <= v.catalog[slug].cap.value
    ensures v.catalog[slug].kind.Edition? ==> forall n <- Numbers(v, slug) :: 1 <= n <= v.catalog[slug].cap.value
    ensures v.catalog[slug].kind.Edition? ==>
      forall c, d | c in Instances(v, slug) && d in Instances(v, slug) && c != d :: v.items[c].edition != v.items[d].edition
  {
    forall c | c in Instances(v, slug) ensures InstanceOk(v, v.items[c]) {}
    if v.catalog[slug].kind.Edition? {
      ImageSize(v, Instances(v, slug), Numbers(v, slug));
      UpTo(v.catalog[slug].cap.value, Numbers(v, slug));
      forall c, d | c in Instances(v, slug) && d in Instances(v, slug) && c != d
        ensures v.items[c].edition != v.items[d].edition
      {
        assert Apart(v.items[c], v.items[d]);
      }
    }
    if v.catalog[slug].kind.Unique? && Live(v, slug) != {} {
      var c :| c in Live(v, slug);
      assert forall d | d in Live(v, slug) :: d == c;
      assert Live(v, slug) == {c};
    }
  }
}
