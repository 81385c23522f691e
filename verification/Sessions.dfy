/**
 Refresh-token families and the OpenID Connect sessions keyed by them. A refresh
 is two store calls, consume and then issue, so other requests run in between
 and the process may die there; each step here is one store call.
 */
module Sessions {
  import opened Prelude

  type TokenId = nat
  type FamilyId = nat
  type RequestId = nat

  datatype Status = Active | Consumed | Revoked

  datatype Subject = UserSubject(user: UserId) | GuestSubject(guest: nat)

  datatype Token = Token(family: FamilyId, subject: Subject, status: Status, expires: int)

  /** What a provider login recorded: who it is at which provider, and the rest of the coordinates. */
  datatype Identity = Identity(provider: string, issuer: string, client: string, subject: string, sid: string)
  datatype OidcSession = OidcSession(identity: Identity, details: string)

  datatype ClaimKey = ClaimKey(provider: string, issuer: string, client: string, jti: string)

  /** A refresh that consumed its token and has not issued the next one yet. */
  datatype Flight = Flight(family: FamilyId, subject: Subject)

  datatype Store = Store(tokens: map<TokenId, Token>, oidc: map<FamilyId, OidcSession>, claims: map<ClaimKey, int>, passwords: map<UserId, string>)

  datatype System = System(store: Store, flights: map<RequestId, Flight>)

  // ---- store calls ----

  datatype Consumption = NotConsumed | ReuseDetected | ConsumedFor(family: FamilyId, subject: Subject)

  /** Revokes the active tokens of some families. */
  function RevokeFamilies(s: Store, families: set<FamilyId>): Store {
    s.(tokens := map t | t in s.tokens ::
         if s.tokens[t].status.Active? && s.tokens[t].family in families then s.tokens[t].(status := Revoked) else s.tokens[t])
  }

  function RevokeUser(s: Store, user: UserId): Store {
    s.(tokens := map t | t in s.tokens ::
         if s.tokens[t].status.Active? && s.tokens[t].subject == UserSubject(user) then s.tokens[t].(status := Revoked) else s.tokens[t])
  }

  /** A password is only replaced where there is one. */
  function SetPassword(s: Store, user: UserId, hash: string): Option<Store> {
    if user in s.passwords then Some(s.(passwords := s.passwords[user := hash])) else None
  }

  function Consume(s: Store, token: TokenId, now: int): (Store, Consumption) {
    if token !in s.tokens then (s, NotConsumed)
    else
      var t := s.tokens[token];
      if !t.status.Active? then (RevokeFamilies(s, {t.family}), ReuseDetected)
      else if t.expires <= now then (s, NotConsumed)
      else (s.(tokens := s.tokens[token := t.(status := Consumed)]), ConsumedFor(t.family, t.subject))
  }

  /** Token hashes are unique, so storing one that exists fails. */
  function Issue(s: Store, token: TokenId, family: FamilyId, subject: Subject, expires: int): Option<Store> {
    if token in s.tokens then None else Some(s.(tokens := s.tokens[token := Token(family, subject, Active, expires)]))
  }

  function Logout(s: Store, token: TokenId): Store {
    if token in s.tokens then RevokeFamilies(s, {s.tokens[token].family}) else s
  }

  function StoreOidc(s: Store, token: TokenId, session: OidcSession): Option<Store> {
    if token !in s.tokens || s.tokens[token].family in s.oidc then None
    else Some(s.(oidc := s.oidc[s.tokens[token].family := session]))
  }

  function FindOidc(s: Store, token: TokenId): Option<OidcSession> {
    if token in s.tokens && s.tokens[token].family in s.oidc then Some(s.oidc[s.tokens[token].family]) else None
  }

  function Frontchannel(s: Store, provider: string, issuer: string, client: string, sid: string): Store {
    RevokeFamilies(s, set f | f in s.oidc &&
      var i := s.oidc[f].identity; i.provider == provider && i.issuer == issuer && i.client == client && i.sid == sid)
  }

  datatype LogoutClaim = LogoutClaim(key: ClaimKey, subject: string, sid: string, expires: int)

  /** A claim with a sid logs out that session, one without logs out all the subject's. */
  predicate Selects(claim: LogoutClaim, i: Identity) {
    && i.provider == claim.key.provider && i.issuer == claim.key.issuer && i.client == claim.key.client
    && if claim.sid != "" then i.sid == claim.sid else i.subject == claim.subject
  }

  function Selected(s: Store, claim: LogoutClaim): set<FamilyId> {
    set f | f in s.oidc && Selects(claim, s.oidc[f].identity)
  }

  function Unexpired(claims: map<ClaimKey, int>, now: int): map<ClaimKey, int> {
    map k | k in claims && claims[k] > now :: claims[k]
  }

  /** Applies a logout token once: a stored, unexpired claim under its identifier makes it a replay, which rolls back. */
  function Backchannel(s: Store, claim: LogoutClaim, now: int): (Store, bool) {
    var claims := Unexpired(s.claims, now);
    if claim.key in claims then (s, false)
    else (RevokeFamilies(s.(claims := claims[claim.key := claim.expires]), Selected(s, claim)), true)
  }

  // ---- the system ----

  datatype Step =
    | Login(token: TokenId, subject: Subject, expires: int)
    | BeginRefresh(request: RequestId, presented: TokenId, now: int)
    | FinishRefresh(request: RequestId, next: TokenId, expires: int)
    | Crash(request: RequestId)
    | SignOut(presented: TokenId)
    | SignOutEverywhere(user: UserId)
    | Register(user: UserId, hash: string)
    | ReplacePassword(user: UserId, hash: string)
    | Deactivate(user: UserId)
    | Attach(presented: TokenId, session: OidcSession)
    | FrontchannelLogout(provider: string, issuer: string, client: string, sid: string)
    | BackchannelLogout(claim: LogoutClaim, now: int)

  function Take(s: System, step: Step): System {
    match step
    case Login(token, subject, expires) =>
      var issued := Issue(s.store, token, token, subject, expires);
      if issued.Some? then s.(store := issued.value) else s
    case BeginRefresh(request, presented, now) =>
      if request in s.flights then s
      else
        var (store, result) := Consume(s.store, presented, now);
        System(store, if result.ConsumedFor? then s.flights[request := Flight(result.family, result.subject)] else s.flights)
    case FinishRefresh(request, next, expires) =>
      if request !in s.flights then s
      else
        var issued := Issue(s.store, next, s.flights[request].family, s.flights[request].subject, expires);
        System(if issued.Some? then issued.value else s.store, s.flights - {request})
    case Crash(request) => s.(flights := s.flights - {request})
    case SignOut(presented) => s.(store := Logout(s.store, presented))
    case SignOutEverywhere(user) => s.(store := RevokeUser(s.store, user))
    case Register(user, hash) =>
      if user in s.store.passwords then s else s.(store := s.store.(passwords := s.store.passwords[user := hash]))
    case ReplacePassword(user, hash) =>
      var replaced := SetPassword(s.store, user, hash);
      if replaced.Some? then s.(store := replaced.value) else s
    case Deactivate(user) => s.(store := RevokeUser(s.store, user).(passwords := s.store.passwords - {user}))
    case Attach(presented, session) =>
      var stored := StoreOidc(s.store, presented, session);
      if stored.Some? then s.(store := stored.value) else s
    case FrontchannelLogout(provider, issuer, client, sid) => s.(store := Frontchannel(s.store, provider, issuer, client, sid))
    case BackchannelLogout(claim, now) => s.(store := Backchannel(s.store, claim, now).0)
  }

  function Run(s: System, steps: seq<Step>): System {
    if steps == [] then s else Take(Run(s, steps[..|steps| - 1]), steps[|steps| - 1])
  }

  const EMPTY := System(Store(map[], map[], map[], map[]), map[])

  // ---- the stores as they are written ----

  class AuthStore {
    var tokens: map<TokenId, Token>
    var oidc: map<FamilyId, OidcSession>
    var claims: map<ClaimKey, int>
    var passwords: map<UserId, string>

    function Snapshot(): Store
      reads this
    {
      Store(tokens, oidc, claims, passwords)
    }

    constructor ()
      ensures Snapshot() == EMPTY.store
    {
      tokens, oidc, claims, passwords := map[], map[], map[], map[];
    }

    /** Revokes those of the selected tokens that are active. */
    method RevokeActive(selected: set<TokenId>)
      modifies this`tokens
      ensures tokens.Keys == old(tokens).Keys
      ensures forall t <- old(tokens) ::
        tokens[t] == if t in selected && old(tokens)[t].status.Active? then old(tokens)[t].(status := Revoked) else old(tokens)[t]
    {
      tokens := map t | t in tokens :: if t in selected && tokens[t].status.Active? then tokens[t].(status := Revoked) else tokens[t];
    }

    method Revoke(families: set<FamilyId>)
      modifies this`tokens
      ensures Snapshot() == RevokeFamilies(old(Snapshot()), families)
    {
      RevokeActive(set t | t in tokens && tokens[t].family in families);
      assert tokens == RevokeFamilies(old(Snapshot()), families).tokens;
    }

    method ConsumeRefreshToken(token: TokenId, now: int) returns (result: Consumption)
      modifies this`tokens
      ensures (Snapshot(), result) == Consume(old(Snapshot()), token, now)
      ensures result.ConsumedFor? <==> token in old(tokens) && old(tokens)[token].status.Active? && old(tokens)[token].expires > now
    {
      if token !in tokens {
        return NotConsumed;
      }
      var row := tokens[token];
      if row.status != Active {
        Revoke({row.family});
        return ReuseDetected;
      }
      if !(row.expires > now) {
        return NotConsumed;
      }
      tokens := tokens[token := row.(status := Consumed)];
      result := ConsumedFor(row.family, row.subject);
    }

    method StoreRefreshToken(token: TokenId, family: FamilyId, subject: Subject, expires: int) returns (stored: bool)
      modifies this`tokens
      ensures var spec := Issue(old(Snapshot()), token, family, subject, expires);
        stored == spec.Some? && Snapshot() == if stored then spec.value else old(Snapshot())
    {
      stored := token !in tokens;
      if stored {
        tokens := tokens[token := Token(family, subject, Active, expires)];
      }
    }

    method RevokeRefreshFamily(token: TokenId)
      modifies this`tokens
      ensures Snapshot() == Logout(old(Snapshot()), token)
    {
      if token in tokens {
        Revoke({tokens[token].family});
      }
    }

    /** Inserts a password; the user's email address and credit account are not part of this state. */
    method CreateUserCredential(user: UserId, hash: string) returns (created: bool)
      modifies this`passwords
      ensures created <==> user !in old(passwords)
      ensures passwords == if created then old(passwords)[user := hash] else old(passwords)
    {
      created := user !in passwords;
      if created {
        passwords := passwords[user := hash];
      }
    }

    /** Replaces the password and then, in a second statement, signs the user out; an unknown account is refused untouched. */
    method UpdatePassword(user: UserId, hash: string) returns (accepted: bool)
      modifies this`tokens, this`passwords
      ensures accepted <==> user in old(passwords)
      ensures passwords == if accepted then old(passwords)[user := hash] else old(passwords)
      ensures !accepted ==> Snapshot() == old(Snapshot())
      ensures accepted ==> forall t <- tokens :: tokens[t].status.Active? ==> tokens[t].subject != UserSubject(user)
      ensures Snapshot() == Take(Take(System(old(Snapshot()), map[]), ReplacePassword(user, hash)),
                                 if accepted then SignOutEverywhere(user) else ReplacePassword(user, hash)).store
    {
      accepted := user in passwords;
      if !accepted {
        return;
      }
      passwords := passwords[user := hash];
      RevokeActive(set t | t in tokens && tokens[t].subject == UserSubject(user));
      assert tokens == RevokeUser(old(Snapshot()), user).tokens;
    }

    method StoreOpenIDConnectSession(token: TokenId, session: OidcSession) returns (stored: bool)
      modifies this`oidc
      ensures var spec := StoreOidc(old(Snapshot()), token, session);
        stored == spec.Some? && Snapshot() == if stored then spec.value else old(Snapshot())
    {
      if token !in tokens {
        return false;
      }
      var family := tokens[token].family;
      stored := family !in oidc;
      if stored {
        oidc := oidc[family := session];
      }
    }

    method ApplyBackchannelLogout(claim: LogoutClaim, now: int) returns (applied: bool)
      modifies this
      ensures (Snapshot(), applied) == Backchannel(old(Snapshot()), claim, now)
    {
      var begin := claims;
      claims := Unexpired(claims, now);
      if claim.key in claims {
        claims := begin;
        return false;
      }
      claims := claims[claim.key := claim.expires];
      var selected: set<FamilyId>;
      if claim.sid != "" {
        selected := set f | f in oidc && var i := oidc[f].identity;
          i.provider == claim.key.provider && i.issuer == claim.key.issuer && i.client == claim.key.client && i.sid == claim.sid;
      } else {
        selected := set f | f in oidc && var i := oidc[f].identity;
          i.provider == claim.key.provider && i.issuer == claim.key.issuer && i.client == claim.key.client && i.subject == claim.subject;
      }
      assert selected == Selected(old(Snapshot()), claim);
      Revoke(selected);
      applied := true;
    }

    method ApplyFrontchannelLogout(provider: string, issuer: string, client: string, sid: string)
      modifies this`tokens
      ensures Snapshot() == Frontchannel(old(Snapshot()), provider, issuer, client, sid)
    {
      Revoke(set f | f in oidc && var i := oidc[f].identity;
        i.provider == provider && i.issuer == issuer && i.client == client && i.sid == sid);
    }
  }

  class Service {
    const store: AuthStore

    constructor (store: AuthStore)
      ensures this.store == store
    {
      this.store := store;
    }

    /** A refresh nothing interrupts: consume, then issue the next token of the same family to the same subject. */
    method Refresh(presented: TokenId, next: TokenId, now: int, expires: int) returns (accepted: bool)
      modifies store
      ensures store.Snapshot() ==
        Take(Take(System(old(store.Snapshot()), map[]), BeginRefresh(0, presented, now)), FinishRefresh(0, next, expires)).store
      ensures accepted <==> presented in old(store.tokens) && old(store.tokens)[presented].status.Active? && old(store.tokens)[presented].expires > now && next !in old(store.tokens)
      ensures accepted ==> next in store.tokens && presented in store.tokens && store.tokens[presented].status.Consumed?
      ensures accepted ==> store.tokens[next] == Token(old(store.tokens)[presented].family, old(store.tokens)[presented].subject, Active, expires)
    {
      var consumed := store.ConsumeRefreshToken(presented, now);
      if !consumed.ConsumedFor? {
        return false;
      }
      accepted := store.StoreRefreshToken(next, consumed.family, consumed.subject, expires);
    }
  }

  // ---- linearity ----

  /** A refresh that consumed the token it presented. */
  predicate Consumes(s: System, step: Step) {
    step.BeginRefresh? && step.request !in s.flights && Consume(s.store, step.presented, step.now).1.ConsumedFor?
  }

  predicate LiveToken(s: System, f: FamilyId, t: TokenId) {
    t in s.store.tokens && s.store.tokens[t].family == f && s.store.tokens[t].status.Active?
  }

  predicate InFlight(s: System, f: FamilyId, r: RequestId) {
    r in s.flights && s.flights[r].family == f
  }

  /** Active tokens plus refreshes in flight number at most one in every family. */
  ghost predicate Linear(s: System) {
    && OneLive(s.store.tokens)
    && OneFlight(s.flights)
    && Exclusive(s.store.tokens, s.flights)
  }

  ghost predicate OneLive(ts: map<TokenId, Token>) {
    forall t, u | t in ts && u in ts && ts[t].status.Active? && ts[u].status.Active? && ts[t].family == ts[u].family :: t == u
  }

  ghost predicate OneFlight(fs: map<RequestId, Flight>) {
    forall r, q | r in fs && q in fs && fs[r].family == fs[q].family :: r == q
  }

  ghost predicate Exclusive(ts: map<TokenId, Token>, fs: map<RequestId, Flight>) {
    forall t, r | t in ts && r in fs && ts[t].status.Active? :: ts[t].family != fs[r].family
  }

  predicate Known(s: Store, f: FamilyId) {
    f in s.tokens
  }

  lemma KnownMeans(s: Store, f: FamilyId)
    ensures Known(s, f) <==> f in s.tokens
  {
  }

  lemma StillKnown(s: Store, u: Store)
    requires s.tokens.Keys <= u.tokens.Keys
    ensures forall f :: Known(s, f) ==> Known(u, f)
  {
  }

  /** Every family is named after the token that founded it, so a fresh token founds a fresh family. */
  ghost predicate Founded(s: System) {
    && (forall t <- s.store.tokens :: Known(s.store, s.store.tokens[t].family))
    && (forall r <- s.flights :: Known(s.store, s.flights[r].family))
  }

  ghost predicate SystemInv(s: System) {
    Linear(s) && Founded(s)
  }

  lemma LoginKeeps(s: System, step: Step)
    requires SystemInv(s) && step.Login?
    ensures SystemInv(Take(s, step))
  {
    hide Known;
    var s' := Take(s, step);
    if step.token !in s.store.tokens {
      KnownMeans(s.store, step.token);
      KnownMeans(s'.store, step.token);
      StillKnown(s.store, s'.store);
      assert Linear(s');
    }
  }

  /** Ending activity and refreshes, and nothing else, keeps every family linear. */
  lemma QuietKeeps(s: System, s': System)
    requires SystemInv(s) && s'.store.tokens.Keys == s.store.tokens.Keys && s'.flights.Keys <= s.flights.Keys
    requires forall t <- s.store.tokens ::
      && s'.store.tokens[t].family == s.store.tokens[t].family
      && (s'.store.tokens[t].status.Active? ==> s.store.tokens[t].status.Active?)
    requires forall r <- s'.flights :: s'.flights[r] == s.flights[r]
    ensures SystemInv(s')
  {
    hide Known;
    StillKnown(s.store, s'.store);
    var (ts, us) := (s.store.tokens, s'.store.tokens);
    forall t | t in us
      ensures t in ts && Known(s'.store, us[t].family) && us[t].family == ts[t].family
      ensures us[t].status.Active? ==> ts[t].status.Active?
    {
      assert t in us.Keys;
      assert Known(s.store, ts[t].family);
    }
    forall r | r in s'.flights ensures r in s.flights && Known(s'.store, s'.flights[r].family) {
      assert r in s'.flights.Keys;
      assert Known(s.store, s.flights[r].family);
    }
    assert Founded(s');
    forall t, u | t in us && u in us && us[t].status.Active? && us[u].status.Active? && us[t].family == us[u].family ensures t == u {
      assert ts[t].family == ts[u].family;
    }
    forall t, r | t in us && r in s'.flights && us[t].status.Active? ensures us[t].family != s'.flights[r].family {
      assert ts[t].family != s.flights[r].family;
    }
    assert Linear(s');
  }

  lemma BeginKeeps(s: System, step: Step)
    requires SystemInv(s) && step.BeginRefresh?
    ensures SystemInv(Take(s, step))
  {
    hide Known;
    if Consumes(s, step) {
      var s' := Take(s, step);
      StillKnown(s.store, s'.store);
      var t := s.store.tokens[step.presented];
      assert s' == System(s.store.(tokens := s.store.tokens[step.presented := t.(status := Consumed)]),
                          s.flights[step.request := Flight(t.family, t.subject)]);
      assert Linear(s');
    } else {
      QuietKeeps(s, Take(s, step));
    }
  }

  lemma FinishKeeps(s: System, step: Step)
    requires SystemInv(s) && step.FinishRefresh? && step.request in s.flights && step.next !in s.store.tokens
    ensures SystemInv(Take(s, step))
  {
    hide Known;
    var s' := Take(s, step);
    StillKnown(s.store, s'.store);
    var f := s.flights[step.request];
    assert s' == System(s.store.(tokens := s.store.tokens[step.next := Token(f.family, f.subject, Active, step.expires)]), s.flights - {step.request});
    assert Linear(s');
  }

  lemma TakeKeeps(s: System, step: Step)
    requires SystemInv(s)
    ensures SystemInv(Take(s, step))
  {
    hide SystemInv;
    if step.Login? { LoginKeeps(s, step); }
    else if step.BeginRefresh? { BeginKeeps(s, step); }
    else if step.FinishRefresh? && step.request in s.flights && step.next !in s.store.tokens { FinishKeeps(s, step); }
    else { QuietKeeps(s, Take(s, step)); }
  }

  /** In every reachable state each family has at most one active token or refresh in flight. */
  lemma {:induction false} FamiliesStayLinear(s: System, steps: seq<Step>)
    requires SystemInv(s)
    ensures SystemInv(Run(s, steps))
  {
    hide Take, SystemInv;
    if steps != [] {
      FamiliesStayLinear(s, steps[..|steps| - 1]);
      TakeKeeps(Run(s, steps[..|steps| - 1]), steps[|steps| - 1]);
    }
  }

  lemma EmptyInv()
    ensures SystemInv(EMPTY)
  {
  }

  /** From the empty store on: two active tokens of one family are the same, so are two refreshes in flight, and there are not both. */
  lemma LinearAfterAnyRun(steps: seq<Step>, f: FamilyId, t: TokenId, u: TokenId, r: RequestId, q: RequestId)
    ensures LiveToken(Run(EMPTY, steps), f, t) && LiveToken(Run(EMPTY, steps), f, u) ==> t == u
    ensures InFlight(Run(EMPTY, steps), f, r) && InFlight(Run(EMPTY, steps), f, q) ==> r == q
    ensures !(LiveToken(Run(EMPTY, steps), f, t) && InFlight(Run(EMPTY, steps), f, r))
  {
    hide Run;
    EmptyInv();
    FamiliesStayLinear(EMPTY, steps);
  }

  // ---- what each step does to each row ----

  /** A step that consumes this token: presented once by a request of its own, active, and not expired yet. */
  predicate Uses(s: System, step: Step, t: TokenId) {
    && step.BeginRefresh? && step.presented == t && step.request !in s.flights
    && t in s.store.tokens && s.store.tokens[t].status == Active && s.store.tokens[t].expires > step.now
  }

  /** A step that revokes this token if it is active: by its family, its user, or the provider session of its family. */
  predicate Reaches(s: System, step: Step, t: TokenId)
    requires t in s.store.tokens
  {
    var (token, tokens, oidc) := (s.store.tokens[t], s.store.tokens, s.store.oidc);
    match step
    case BeginRefresh(request, presented, _) =>
      request !in s.flights && presented in tokens && tokens[presented].status != Active && tokens[presented].family == token.family
    case SignOut(presented) => presented in tokens && tokens[presented].family == token.family
    case SignOutEverywhere(user) => token.subject == UserSubject(user)
    case Deactivate(user) => token.subject == UserSubject(user)
    case FrontchannelLogout(provider, issuer, client, sid) =>
      token.family in oidc && var i := oidc[token.family].identity; i.provider == provider && i.issuer == issuer && i.client == client && i.sid == sid
    case BackchannelLogout(claim, now) =>
      && FreshClaim(s.store, claim, now) && token.family in oidc
      && var i := oidc[token.family].identity;
      && i.provider == claim.key.provider && i.issuer == claim.key.issuer && i.client == claim.key.client
      && (claim.sid != "" ==> i.sid == claim.sid) && (claim.sid == "" ==> i.subject == claim.subject)
    case _ => false
  }

  /** No unexpired claim is stored under the logout token's identifier. */
  predicate FreshClaim(s: Store, claim: LogoutClaim, now: int) {
    claim.key in s.claims ==> s.claims[claim.key] <= now
  }

  /** The token a step adds: a login founds a family, a refresh in flight continues its own; neither replaces a token. */
  function Issued(s: System, step: Step): Option<(TokenId, Token)> {
    match step
    case Login(token, subject, expires) => if token in s.store.tokens then None else Some((token, Token(token, subject, Active, expires)))
    case FinishRefresh(request, next, expires) =>
      if request !in s.flights || next in s.store.tokens then None
      else Some((next, Token(s.flights[request].family, s.flights[request].subject, Active, expires)))
    case _ => None
  }

  /** Every token after any step: used, revoked, added, or as it was. */
  lemma EveryTokenAfter(s: System, step: Step, t: TokenId)
    ensures var (before, after) := (s.store.tokens, Take(s, step).store.tokens);
      && (t in after <==> t in before || (Issued(s, step).Some? && Issued(s, step).value.0 == t))
      && (t in before ==>
            && t in after
            && after[t] == (if Uses(s, step, t) then before[t].(status := Consumed)
                            else if before[t].status == Active && Reaches(s, step, t) then before[t].(status := Revoked)
                            else before[t]))
      && (t !in before && t in after ==> after[t] == Issued(s, step).value.1)
  {
  }

  /** Every refresh in flight after any step: it starts by using a token and ends by finishing or crashing. */
  lemma EveryFlightAfter(s: System, step: Step, r: RequestId)
    ensures var (before, after) := (s.flights, Take(s, step).flights);
      && (r in after <==> (r in before && !((step.FinishRefresh? || step.Crash?) && step.request == r))
                          || (step.BeginRefresh? && step.request == r && Uses(s, step, step.presented)))
      && (r in after ==> after[r] == if r in before then before[r] else Flight(s.store.tokens[step.presented].family, s.store.tokens[step.presented].subject))
  {
  }

  /** Every provider session, claim and password after any step. */
  lemma EveryRecordAfter(s: System, step: Step)
    ensures var (before, after) := (s.store, Take(s, step).store);
      && after.oidc == (if step.Attach? && step.presented in before.tokens && before.tokens[step.presented].family !in before.oidc
                        then before.oidc[before.tokens[step.presented].family := step.session] else before.oidc)
      && after.claims == (if step.BackchannelLogout? && FreshClaim(before, step.claim, step.now)
                          then (map k | k in before.claims && before.claims[k] > step.now :: before.claims[k])[step.claim.key := step.claim.expires]
                          else before.claims)
      && after.passwords == match step
           case Register(user, hash) => if user in before.passwords then before.passwords else before.passwords[user := hash]
           case ReplacePassword(user, hash) => if user in before.passwords then before.passwords[user := hash] else before.passwords
           case Deactivate(user) => before.passwords - {user}
           case _ => before.passwords
  {
  }

  /** What presenting a token is answered. An active one that has expired is not consumed, and nothing changes. */
  lemma ConsumedIff(s: Store, token: TokenId, now: int)
    ensures Consume(s, token, now).1.ConsumedFor? <==> token in s.tokens && s.tokens[token].status == Active && s.tokens[token].expires > now
    ensures Consume(s, token, now).1.ConsumedFor? ==> Consume(s, token, now).1 == ConsumedFor(s.tokens[token].family, s.tokens[token].subject)
    ensures Consume(s, token, now).1.ReuseDetected? <==> token in s.tokens && s.tokens[token].status != Active
    ensures Consume(s, token, now).1.NotConsumed? ==> Consume(s, token, now).0 == s
  {
  }

  // ---- tokens only go one way ----

  /** A token keeps its family, subject and expiry, and what is no longer active stays as it is; sessions once stored stay. */
  ghost predicate Onward(s: Store, u: Store) {
    && (forall t <- s.tokens :: t in u.tokens
          && u.tokens[t].family == s.tokens[t].family && u.tokens[t].subject == s.tokens[t].subject && u.tokens[t].expires == s.tokens[t].expires
          && (!s.tokens[t].status.Active? ==> u.tokens[t] == s.tokens[t]))
    && (forall f <- s.oidc :: f in u.oidc && u.oidc[f] == s.oidc[f])
  }

  lemma TakeOnward(s: System, step: Step)
    ensures Onward(s.store, Take(s, step).store)
  {
  }

  lemma {:induction false} RunOnward(s: System, steps: seq<Step>, i: nat, j: nat)
    requires i <= j <= |steps|
    ensures Onward(Run(s, steps[..i]).store, Run(s, steps[..j]).store)
    decreases j
  {
    hide Take;
    if i < j {
      RunOnward(s, steps, i, j - 1);
      assert steps[..j][..j - 1] == steps[..j - 1];
      TakeOnward(Run(s, steps[..j - 1]), steps[j - 1]);
    }
  }

  /** A token is never consumed at or after the expiry it was issued with, and such an attempt starts no refresh. */
  lemma ExpiredNeverConsumed(s: System, steps: seq<Step>, i: nat, j: nat, t: TokenId)
    requires i <= j < |steps| && t in Run(s, steps[..i]).store.tokens && steps[j].BeginRefresh? && steps[j].presented == t
    requires Run(s, steps[..i]).store.tokens[t].expires <= steps[j].now
    ensures !Consumes(Run(s, steps[..j]), steps[j])
    ensures forall r :: r in Run(s, steps[..j + 1]).flights ==> r in Run(s, steps[..j]).flights
  {
    RunOnward(s, steps, i, j);
    assert steps[..j + 1][..j] == steps[..j];
    EveryFlights(Run(s, steps[..j]), steps[j]);
  }

  lemma EveryFlights(s: System, step: Step)
    ensures forall r :: r in Take(s, step).flights ==> r in s.flights || (step.BeginRefresh? && Uses(s, step, step.presented))
  {
    forall r | r in Take(s, step).flights ensures r in s.flights || (step.BeginRefresh? && Uses(s, step, step.presented)) {
      EveryFlightAfter(s, step, r);
    }
  }

  /** However requests interleave, a token is consumed at most once. */
  lemma ConsumedAtMostOnce(s: System, steps: seq<Step>, i: nat, j: nat)
    requires i < j < |steps| && Consumes(Run(s, steps[..i]), steps[i])
    requires steps[j].BeginRefresh? && steps[j].presented == steps[i].presented
    ensures !Consumes(Run(s, steps[..j]), steps[j])
  {
    var t := steps[i].presented;
    assert steps[..i + 1][..i] == steps[..i];
    assert Run(s, steps[..i + 1]).store.tokens[t].status.Consumed?;
    RunOnward(s, steps, i + 1, j);
  }

  /** A token that is not active at some point of a run is not active at any later one. */
  lemma NeverActiveAgain(s: System, steps: seq<Step>, i: nat, j: nat, t: TokenId)
    requires i <= j <= |steps|
    requires t in Run(s, steps[..i]).store.tokens && !Run(s, steps[..i]).store.tokens[t].status.Active?
    ensures t in Run(s, steps[..j]).store.tokens && Run(s, steps[..j]).store.tokens[t] == Run(s, steps[..i]).store.tokens[t]
  {
    RunOnward(s, steps, i, j);
  }

  // ---- dead families ----

  /** A known family with no active token and no refresh in flight. */
  ghost predicate Dead(s: System, f: FamilyId) {
    f in s.store.tokens && (forall t :: !LiveToken(s, f, t)) && (forall r :: !InFlight(s, f, r))
  }

  lemma DeadStep(s: System, step: Step, f: FamilyId)
    requires Dead(s, f)
    ensures Dead(Take(s, step), f)
  {
    var s' := Take(s, step);
    assert step.FinishRefresh? ==> !InFlight(s, f, step.request);
    forall t ensures !LiveToken(s', f, t) {
      assert !LiveToken(s, f, t);
    }
    forall r ensures !InFlight(s', f, r) {
      assert !InFlight(s, f, r);
      if step.BeginRefresh? { assert !LiveToken(s, f, step.presented); }
    }
  }

  lemma {:induction false} DeadStaysDead(s: System, steps: seq<Step>, f: FamilyId)
    requires Dead(s, f)
    ensures Dead(Run(s, steps), f)
  {
    hide Take, Dead;
    if steps != [] {
      DeadStaysDead(s, steps[..|steps| - 1], f);
      DeadStep(Run(s, steps[..|steps| - 1]), steps[|steps| - 1], f);
    }
  }

  /** An active token that expires at the given time. */
  predicate LiveUntil(s: System, f: FamilyId, t: TokenId, expires: int) {
    LiveToken(s, f, t) && s.store.tokens[t].expires == expires
  }

  /**
   A known family without an active token, whatever revoked it, comes back to
   life in some run, to expire as late as you please, exactly when a refresh of
   it is in flight.
   */
  lemma RevokedFamilyRevivesIffInFlight(s: System, f: FamilyId, expires: int)
    requires f in s.store.tokens && forall t :: !LiveToken(s, f, t)
    ensures (exists steps, t :: LiveUntil(Run(s, steps), f, t, expires)) <==> (exists r :: InFlight(s, f, r))
  {
    if r :| InFlight(s, f, r) {
      var next := MaxOf(s.store.tokens.Keys) + 1;
      var steps := [FinishRefresh(r, next, expires)];
      assert steps[..0] == [] && Run(s, []) == s;
      assert Run(s, steps) == Take(s, steps[0]);
      assert LiveUntil(Run(s, steps), f, next, expires);
    } else {
      assert Dead(s, f);
      forall steps, t ensures !LiveUntil(Run(s, steps), f, t, expires) {
        DeadStaysDead(s, steps, f);
      }
    }
  }

  /** What ends a family's sessions: reuse, signing out with one of its tokens, or a logout by its provider. */
  predicate Ends(s: System, step: Step, f: FamilyId) {
    match step
    case BeginRefresh(request, presented, _) =>
      request !in s.flights && presented in s.store.tokens && s.store.tokens[presented].family == f && !s.store.tokens[presented].status.Active?
    case SignOut(presented) => presented in s.store.tokens && s.store.tokens[presented].family == f
    case FrontchannelLogout(provider, issuer, client, sid) =>
      f in s.store.oidc && var i := s.store.oidc[f].identity; i.provider == provider && i.issuer == issuer && i.client == client && i.sid == sid
    case BackchannelLogout(claim, now) => f in Selected(s.store, claim) && Backchannel(s.store, claim, now).1
    case _ => false
  }

  lemma EndedStep(s: System, step: Step, f: FamilyId)
    requires f in s.store.tokens && Ends(s, step, f)
    ensures f in Take(s, step).store.tokens
    ensures forall t :: !LiveToken(Take(s, step), f, t)
    ensures forall r :: InFlight(Take(s, step), f, r) <==> InFlight(s, f, r)
  {
  }

  /** Dead, and so in every state any run leads to. */
  ghost predicate DeadForGood(s: System, f: FamilyId) {
    forall steps :: Dead(Run(s, steps), f)
  }

  lemma DeadIsForGood(s: System, f: FamilyId)
    ensures DeadForGood(s, f) <==> Dead(s, f)
  {
    hide Take, Dead;
    if Dead(s, f) {
      forall steps ensures Dead(Run(s, steps), f) {
        DeadStaysDead(s, steps, f);
      }
    } else {
      var none: seq<Step> := [];
      assert Run(s, none) == s;
      assert !Dead(Run(s, none), f);
    }
  }

  /** Whichever it is, no token of the family is active then, and the family is dead for good unless a refresh of it is in flight. */
  lemma EndedForGoodIffNotInFlight(s: System, step: Step, f: FamilyId)
    requires f in s.store.tokens && Ends(s, step, f)
    ensures forall t :: !LiveToken(Take(s, step), f, t)
    ensures DeadForGood(Take(s, step), f) <==> forall r :: !InFlight(s, f, r)
  {
    hide Take, Ends, DeadForGood;
    EndedStep(s, step, f);
    DeadIsForGood(Take(s, step), f);
  }

  /** Presenting a spent token is answered as reuse, exactly then, and leaves its family without an active token. */
  lemma ReuseKillsFamily(s: Store, token: TokenId, now: int)
    ensures Consume(s, token, now).1.ReuseDetected? <==> token in s.tokens && !s.tokens[token].status.Active?
    ensures Consume(s, token, now).1.ReuseDetected? ==> forall t :: !LiveToken(System(Consume(s, token, now).0, map[]), s.tokens[token].family, t)
    ensures Consume(s, token, now).1.ReuseDetected? ==> forall t <- s.tokens :: s.tokens[t].family != s.tokens[token].family ==>
      t in Consume(s, token, now).0.tokens && Consume(s, token, now).0.tokens[t] == s.tokens[t]
  {
  }

  /** Signing a user out revokes exactly their active tokens, whatever family they are of. */
  lemma SignOutRevokesTheUsers(s: System, user: UserId, t: TokenId)
    requires t in s.store.tokens
    ensures var u := Take(s, SignOutEverywhere(user));
      && t in u.store.tokens && u.flights == s.flights && u.store.passwords == s.store.passwords
      && (u.store.tokens[t].status.Active? <==> s.store.tokens[t].status.Active? && s.store.tokens[t].subject != UserSubject(user))
      && (u.store.tokens[t] != s.store.tokens[t] ==> u.store.tokens[t] == s.store.tokens[t].(status := Revoked))
  {
  }

  /** Between the two statements of a password change every session is still alive, so a crash there leaves them so. */
  lemma ReplacingAloneSignsNobodyOut(s: System, user: UserId, hash: string, f: FamilyId, t: TokenId)
    requires user in s.store.passwords
    ensures var u := Take(s, ReplacePassword(user, hash));
      u.store.passwords[user] == hash && (LiveToken(u, f, t) <==> LiveToken(s, f, t))
  {
  }

  // ---- sessions stay reachable ----

  /** Every token of a family finds the same provider session, and what it finds never changes. */
  lemma FamilyFindsOneSession(s: System, steps: seq<Step>, i: nat, j: nat, t: TokenId, u: TokenId)
    requires i <= j <= |steps|
    requires t in Run(s, steps[..i]).store.tokens && FindOidc(Run(s, steps[..i]).store, t).Some?
    requires u in Run(s, steps[..j]).store.tokens && Run(s, steps[..j]).store.tokens[u].family == Run(s, steps[..i]).store.tokens[t].family
    ensures FindOidc(Run(s, steps[..j]).store, u) == FindOidc(Run(s, steps[..i]).store, t)
  {
    RunOnward(s, steps, i, j);
  }

  /** The token a refresh issues finds the session the consumed one found, whatever happened between its two calls. */
  lemma RefreshKeepsSession(s: System, steps: seq<Step>, i: nat, j: nat)
    requires i < j < |steps| && Consumes(Run(s, steps[..i]), steps[i])
    requires steps[j].FinishRefresh? && steps[j].request == steps[i].request
    requires forall k :: i < k < j ==> !((steps[k].FinishRefresh? || steps[k].Crash?) && steps[k].request == steps[i].request)
    requires steps[j].next !in Run(s, steps[..j]).store.tokens
    ensures steps[i].presented in Run(s, steps[..j + 1]).store.tokens
    ensures FindOidc(Run(s, steps[..j + 1]).store, steps[j].next) == FindOidc(Run(s, steps[..j + 1]).store, steps[i].presented)
    ensures LiveToken(Run(s, steps[..j + 1]), Run(s, steps[..i]).store.tokens[steps[i].presented].family, steps[j].next)
  {
    var (t, r) := (steps[i].presented, steps[i].request);
    assert steps[..i + 1][..i] == steps[..i];
    assert steps[..j + 1][..j] == steps[..j];
    var begun := Run(s, steps[..i + 1]);
    assert r in begun.flights && begun.flights[r].family == Run(s, steps[..i]).store.tokens[t].family;
    FlightStays(s, steps, i + 1, j, r);
    RunOnward(s, steps, i, j);
  }

  lemma {:induction false} FlightStays(s: System, steps: seq<Step>, i: nat, j: nat, r: RequestId)
    requires i <= j <= |steps| && r in Run(s, steps[..i]).flights
    requires forall k :: i <= k < j ==> !((steps[k].FinishRefresh? || steps[k].Crash?) && steps[k].request == r)
    ensures r in Run(s, steps[..j]).flights && Run(s, steps[..j]).flights[r] == Run(s, steps[..i]).flights[r]
    decreases j
  {
    if i < j {
      FlightStays(s, steps, i, j - 1, r);
      assert steps[..j][..j - 1] == steps[..j - 1];
      FlightStep(Run(s, steps[..j - 1]), steps[j - 1], r);
    }
  }

  lemma FlightStep(s: System, step: Step, r: RequestId)
    requires r in s.flights && !((step.FinishRefresh? || step.Crash?) && step.request == r)
    ensures r in Take(s, step).flights && Take(s, step).flights[r] == s.flights[r]
  {
  }

  // ---- provider logout ----

  /** A logout token that is applied leaves no active token in any family it selects and touches no other family. */
  lemma BackchannelRevokesSelected(s: Store, claim: LogoutClaim, now: int, t: TokenId)
    requires t in s.tokens && Backchannel(s, claim, now).1
    ensures var u := Backchannel(s, claim, now).0;
      && t in u.tokens
      && u.tokens[t] == if s.tokens[t].status.Active? && FindOidc(s, t).Some? && Selects(claim, FindOidc(s, t).value.identity)
                        then s.tokens[t].(status := Revoked) else s.tokens[t]
  {
  }

  predicate Applies(s: System, step: Step) {
    step.BackchannelLogout? && Backchannel(s.store, step.claim, step.now).1
  }

  lemma ClaimStays(s: System, step: Step, key: ClaimKey, expires: int)
    requires key in s.store.claims && s.store.claims[key] == expires
    requires step.BackchannelLogout? ==> step.now < expires
    ensures key in Take(s, step).store.claims && Take(s, step).store.claims[key] == expires
  {
  }

  lemma {:induction false} ClaimStaysInRun(s: System, steps: seq<Step>, i: nat, j: nat, key: ClaimKey, expires: int)
    requires i <= j <= |steps| && key in Run(s, steps[..i]).store.claims && Run(s, steps[..i]).store.claims[key] == expires
    requires forall k :: i <= k < j && steps[k].BackchannelLogout? ==> steps[k].now < expires
    ensures key in Run(s, steps[..j]).store.claims && Run(s, steps[..j]).store.claims[key] == expires
    decreases j
  {
    if i < j {
      ClaimStaysInRun(s, steps, i, j - 1, key, expires);
      assert steps[..j][..j - 1] == steps[..j - 1];
      ClaimStays(Run(s, steps[..j - 1]), steps[j - 1], key, expires);
    }
  }

  /** Until it expires a logout token is applied at most once: a second presentation is a replay and changes nothing. */
  lemma LogoutTokenAppliedAtMostOnce(s: System, steps: seq<Step>, i: nat, j: nat)
    requires i < j < |steps| && Applies(Run(s, steps[..i]), steps[i])
    requires steps[j].BackchannelLogout? && steps[j].claim.key == steps[i].claim.key
    requires forall k :: i < k <= j && steps[k].BackchannelLogout? ==> steps[k].now < steps[i].claim.expires
    ensures !Applies(Run(s, steps[..j]), steps[j])
    ensures Run(s, steps[..j + 1]) == Run(s, steps[..j])
  {
    assert steps[..i + 1][..i] == steps[..i];
    assert steps[..j + 1][..j] == steps[..j];
    var (key, expires) := (steps[i].claim.key, steps[i].claim.expires);
    assert key in Run(s, steps[..i + 1]).store.claims && Run(s, steps[..i + 1]).store.claims[key] == expires;
    ClaimStaysInRun(s, steps, i + 1, j, key, expires);
  }
}
