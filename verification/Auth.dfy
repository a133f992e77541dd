/** The identity service: accounts, invites and rotating refresh tokens, one call a step. Signatures
    and hashes are collision-free stand-ins; whether a signature verifies is up to the environment. */
module Auth {
  import opened Common

  const REFRESH_TTL_MS := 30 * 24 * 60 * 60 * 1000
  const INVITE_TTL_MS := 7 * 24 * 60 * 60 * 1000

  datatype Role = CUSTOMER | RESTAURANT_OWNER | RESTAURANT_STAFF

  /** A password hash: of a known password, or of a random one nobody was told. */
  datatype PasswordHash = Of(password: Id) | Placeholder

  datatype User = User(
    email: string, passwordHash: PasswordHash, role: Role, restaurantId: Option<Id>,
    isActive: bool, inviteToken: Option<Id>, inviteExpiresAt: Option<int>)

  /** The payload a refresh token carries. */
  datatype Jwt = Jwt(sub: Id, tokenId: Id)

  /** A refresh_tokens row, named by its position; `hashed` is the token whose hash is stored. */
  datatype RefreshRow = RefreshRow(userId: Id, hashed: Jwt, expiresAt: int, revokedAt: Option<int>)

  datatype Store = Store(users: seq<User>, tokens: seq<RefreshRow>)
  const EMPTY := Store([], [])

  datatype AuthError = EmailTaken | InvalidCredentials | InvalidToken | TokenRevoked | UserInactive | InvalidInvite | InviteTokenTaken

  function FindByEmail(users: seq<User>, email: string): (r: Option<nat>)
    ensures r.Some? ==> r.value < |users| && users[r.value].email == email
    ensures r.None? ==> forall k :: 0 <= k < |users| ==> users[k].email != email
  {
    if users == [] then None
    else if users[|users| - 1].email == email then Some(|users| - 1)
    else FindByEmail(users[..|users| - 1], email)
  }

  function FindByInvite(users: seq<User>, inviteToken: Id): (r: Option<nat>)
    ensures r.Some? ==> r.value < |users| && users[r.value].inviteToken == Some(inviteToken)
    ensures r.None? ==> forall k :: 0 <= k < |users| ==> users[k].inviteToken != Some(inviteToken)
  {
    if users == [] then None
    else if users[|users| - 1].inviteToken == Some(inviteToken) then Some(|users| - 1)
    else FindByInvite(users[..|users| - 1], inviteToken)
  }

  function IssueTokens(st: Store, userId: Id, now: int): (Store, Jwt) {
    var jwt := Jwt(userId, |st.tokens|);
    (st.(tokens := st.tokens + [RefreshRow(userId, jwt, now + REFRESH_TTL_MS, None)]), jwt)
  }

  function Register(st: Store, email: string, password: Id, now: int): (Store, Result<Jwt, AuthError>) {
    if FindByEmail(st.users, email).Some? then (st, Err(EmailTaken))
    else
      var user := User(email, Of(password), CUSTOMER, None, true, None, None);
      var (after, jwt) := IssueTokens(st.(users := st.users + [user]), |st.users|, now);
      (after, Ok(jwt))
  }

  function Login(st: Store, email: string, password: Id, now: int): (Store, Result<Jwt, AuthError>) {
    match FindByEmail(st.users, email)
    case None => (st, Err(InvalidCredentials))
    case Some(id) =>
      if !st.users[id].isActive || st.users[id].passwordHash != Of(password) then (st, Err(InvalidCredentials))
      else var (after, jwt) := IssueTokens(st, id, now); (after, Ok(jwt))
  }

  function Refresh(st: Store, jwt: Jwt, verifies: bool, now: int): (Store, Result<Jwt, AuthError>) {
    if !verifies then (st, Err(InvalidToken))
    else if jwt.tokenId >= |st.tokens| then (st, Err(TokenRevoked))
    else
      var stored := st.tokens[jwt.tokenId];
      if stored.hashed != jwt || stored.revokedAt.Some? || stored.expiresAt < now then (st, Err(TokenRevoked))
      else if jwt.sub >= |st.users| || !st.users[jwt.sub].isActive then (st, Err(UserInactive))
      else
        var revoked := st.(tokens := st.tokens[jwt.tokenId := stored.(revokedAt := Some(now))]);
        var (after, issued) := IssueTokens(revoked, jwt.sub, now);
        (after, Ok(issued))
  }

  /** logout() checks the signature only, and answers nothing either way. */
  function Logout(st: Store, jwt: Jwt, verifies: bool, now: int): Store {
    if !verifies || jwt.tokenId >= |st.tokens| then st
    else st.(tokens := st.tokens[jwt.tokenId := st.tokens[jwt.tokenId].(revokedAt := Some(now))])
  }

  function InviteStaff(st: Store, email: string, role: Role, restaurantId: Id, tempPassword: Id): (Store, Result<Id, AuthError>) {
    if FindByEmail(st.users, email).Some? then (st, Err(EmailTaken))
    else (st.(users := st.users + [User(email, Of(tempPassword), role, Some(restaurantId), true, None, None)]), Ok(|st.users|))
  }

  /** The unique invite_token column refuses a token that is already out. */
  function InviteOwner(st: Store, email: string, restaurantId: Id, inviteToken: Id, now: int): (Store, Result<Id, AuthError>) {
    if FindByEmail(st.users, email).Some? then (st, Err(EmailTaken))
    else if FindByInvite(st.users, inviteToken).Some? then (st, Err(InviteTokenTaken))
    else
      var user := User(email, Placeholder, RESTAURANT_OWNER, Some(restaurantId), false, Some(inviteToken), Some(now + INVITE_TTL_MS));
      (st.(users := st.users + [user]), Ok(|st.users|))
  }

  function Activated(user: User, password: Id): User {
    user.(passwordHash := Of(password), isActive := true, inviteToken := None, inviteExpiresAt := None)
  }

  function AcceptInvite(st: Store, inviteToken: Id, password: Id, now: int): (Store, Result<Jwt, AuthError>) {
    match FindByInvite(st.users, inviteToken)
    case None => (st, Err(InvalidInvite))
    case Some(id) =>
      if st.users[id].inviteExpiresAt.None? || st.users[id].inviteExpiresAt.value < now then (st, Err(InvalidInvite))
      else
        var (after, jwt) := IssueTokens(st.(users := st.users[id := Activated(st.users[id], password)]), id, now);
        (after, Ok(jwt))
  }

  // ----- Runs, with a history of families and of successful refreshes -----

  datatype Op =
    | RegisterOp(email: string, password: Id, now: int)
    | LoginOp(email: string, password: Id, now: int)
    | RefreshOp(jwt: Jwt, verifies: bool, now: int)
    | LogoutOp(jwt: Jwt, verifies: bool, now: int)
    | InviteStaffOp(email: string, role: Role, restaurantId: Id, password: Id)
    | InviteOwnerOp(email: string, restaurantId: Id, inviteToken: Id, now: int)
    | AcceptOp(inviteToken: Id, password: Id, now: int)

  function Do(st: Store, op: Op): Store {
    match op
    case RegisterOp(email, password, now) => Register(st, email, password, now).0
    case LoginOp(email, password, now) => Login(st, email, password, now).0
    case RefreshOp(jwt, verifies, now) => Refresh(st, jwt, verifies, now).0
    case LogoutOp(jwt, verifies, now) => Logout(st, jwt, verifies, now)
    case InviteStaffOp(email, role, restaurantId, password) => InviteStaff(st, email, role, restaurantId, password).0
    case InviteOwnerOp(email, restaurantId, inviteToken, now) => InviteOwner(st, email, restaurantId, inviteToken, now).0
    case AcceptOp(inviteToken, password, now) => AcceptInvite(st, inviteToken, password, now).0
  }

  /** `family[t]` is the first token of t's rotation chain; `used` lists the refreshed tokens. */
  datatype World = World(store: Store, family: seq<Id>, used: seq<Id>)

  predicate Rotates(st: Store, op: Op) {
    op.RefreshOp? && Refresh(st, op.jwt, op.verifies, op.now).1.Ok?
  }

  function Next(w: World, op: Op): World {
    var store := Do(w.store, op);
    if Rotates(w.store, op) then
      World(store, w.family + [if op.jwt.tokenId < |w.family| then w.family[op.jwt.tokenId] else 0], w.used + [op.jwt.tokenId])
    else World(store, if |store.tokens| > |w.store.tokens| then w.family + [|w.store.tokens|] else w.family, w.used)
  }

  function Run(ops: seq<Op>): World
    decreases |ops|
  {
    if ops == [] then World(EMPTY, [], []) else Next(Run(ops[..|ops| - 1]), ops[|ops| - 1])
  }

  // ----- Invariant -----

  /** Accounts: one an email; an invite is pending exactly while the account is inactive. */
  ghost predicate UsersOk(users: seq<User>) {
    && (forall a, b :: 0 <= a < b < |users| ==> users[a].email != users[b].email)
    && (forall a, b :: 0 <= a < b < |users| && users[a].inviteToken.Some? ==> users[a].inviteToken != users[b].inviteToken)
    && forall a :: 0 <= a < |users| ==>
         && (users[a].inviteToken.Some? <==> !users[a].isActive)
         && (users[a].inviteToken.Some? <==> users[a].inviteExpiresAt.Some?)
         && (users[a].inviteToken.Some? ==> users[a].passwordHash == Placeholder)
  }

  /** Tokens: each stores its own hash and belongs to an active account. */
  ghost predicate TokensOk(st: Store) {
    forall t :: 0 <= t < |st.tokens| ==>
      && st.tokens[t].hashed == Jwt(st.tokens[t].userId, t)
      && st.tokens[t].userId < |st.users| && st.users[st.tokens[t].userId].isActive
  }

  predicate LiveIn(w: World, family: Id, t: nat) {
    t < |w.family| && t < |w.store.tokens| && w.family[t] == family && w.store.tokens[t].revokedAt.None?
  }

  ghost predicate FamiliesOk(w: World) {
    && |w.family| == |w.store.tokens|
    && (forall t :: 0 <= t < |w.family| ==> w.family[t] <= t)
    && (forall f: Id, t: nat, u: nat :: LiveIn(w, f, t) && LiveIn(w, f, u) ==> t == u)
    && (forall a, b :: 0 <= a < b < |w.used| ==> w.used[a] != w.used[b])
    && (forall t :: t in w.used ==> t < |w.store.tokens| && w.store.tokens[t].revokedAt.Some?)
  }

  ghost predicate Inv(w: World) {
    UsersOk(w.store.users) && TokensOk(w.store) && FamiliesOk(w)
  }

  /** Rows only grow; revocation and activation are for good, and a token stays its user's. */
  ghost predicate Forward(before: Store, after: Store) {
    && |before.users| <= |after.users| && |before.tokens| <= |after.tokens|
    && (forall a :: 0 <= a < |before.users| ==>
          after.users[a].email == before.users[a].email && (before.users[a].isActive ==> after.users[a] == before.users[a]))
    && (forall t :: 0 <= t < |before.tokens| ==>
          && after.tokens[t].(revokedAt := None) == before.tokens[t].(revokedAt := None)
          && (before.tokens[t].revokedAt.Some? ==> after.tokens[t].revokedAt.Some?))
  }

  /** How a call may change the accounts. */
  lemma UsersMove(st: Store, op: Op)
    requires UsersOk(st.users)
    ensures var users := Do(st, op).users;
      && |st.users| <= |users|
      && (forall a :: 0 <= a < |st.users| ==>
            users[a].email == st.users[a].email && (st.users[a].isActive ==> users[a] == st.users[a]))
  {
    match op
    case AcceptOp(inviteToken, password, now) =>
    case _ =>
  }

  lemma UserAdded(users: seq<User>, user: User)
    requires UsersOk(users) && FindByEmail(users, user.email).None?
    requires user.inviteToken.Some? ==> FindByInvite(users, user.inviteToken.value).None?
    requires if user.isActive then user.inviteToken.None? && user.inviteExpiresAt.None?
             else user.inviteToken.Some? && user.inviteExpiresAt.Some? && user.passwordHash == Placeholder
    ensures UsersOk(users + [user])
  {
  }

  lemma UsersKeep(st: Store, op: Op)
    requires UsersOk(st.users)
    ensures UsersOk(Do(st, op).users)
  {
    var users := Do(st, op).users;
    match op
    case RegisterOp(_, _, _) => if users != st.users { UserAdded(st.users, users[|st.users|]); }
    case InviteStaffOp(_, _, _, _) => if users != st.users { UserAdded(st.users, users[|st.users|]); }
    case InviteOwnerOp(_, _, _, _) => if users != st.users { UserAdded(st.users, users[|st.users|]); }
    case _ =>
  }

  /** How a call may change the tokens: rows are revoked, and one may be issued to an active account. */
  lemma TokensKeep(st: Store, op: Op)
    requires UsersOk(st.users) && TokensOk(st)
    ensures TokensOk(Do(st, op))
  {
    UsersMove(st, op);
    match op
    case RefreshOp(jwt, verifies, now) =>
    case AcceptOp(inviteToken, password, now) =>
    case _ =>
  }

  lemma TokensForward(st: Store, op: Op)
    ensures var tokens := Do(st, op).tokens;
      && |st.tokens| <= |tokens|
      && (forall t :: 0 <= t < |st.tokens| ==>
            && tokens[t].(revokedAt := None) == st.tokens[t].(revokedAt := None)
            && (st.tokens[t].revokedAt.Some? ==> tokens[t].revokedAt.Some?))
  {
  }

  lemma DoKeeps(st: Store, op: Op)
    requires UsersOk(st.users) && TokensOk(st)
    ensures UsersOk(Do(st, op).users) && TokensOk(Do(st, op)) && Forward(st, Do(st, op))
  {
    UsersMove(st, op);
    UsersKeep(st, op);
    TokensKeep(st, op);
    TokensForward(st, op);
  }

  lemma TokensMove(st: Store, op: Op)
    ensures var n := Do(st, op).tokens;
      && (Rotates(st, op) ==> op.jwt.tokenId < |st.tokens| && st.tokens[op.jwt.tokenId].revokedAt.None? && |n| == |st.tokens| + 1
                              && n[op.jwt.tokenId].revokedAt.Some?
                              && forall t :: 0 <= t < |st.tokens| && t != op.jwt.tokenId ==> n[t] == st.tokens[t])
      && (!Rotates(st, op) ==> |st.tokens| <= |n| <= |st.tokens| + 1
                               && forall t :: 0 <= t < |st.tokens| ==> n[t].revokedAt.None? ==> st.tokens[t].revokedAt.None?)
      && forall t :: 0 <= t < |st.tokens| && st.tokens[t].revokedAt.Some? ==> n[t].revokedAt.Some?
  {
  }

  lemma NextKeeps(w: World, op: Op)
    requires Inv(w)
    ensures Inv(Next(w, op)) && Forward(w.store, Next(w, op).store)
  {
    var n := Next(w, op);
    DoKeeps(w.store, op);
    TokensMove(w.store, op);
    FamiliesMove(w, op);
  }

  /** A family's live token is replaced, never joined. */
  lemma FamiliesMove(w: World, op: Op)
    requires FamiliesOk(w)
    ensures FamiliesOk(Next(w, op))
    ensures forall f: Id, t: nat :: LiveIn(Next(w, op), f, t) && f < |w.family| ==> exists u: nat :: LiveIn(w, f, u)
  {
    var n := Next(w, op);
    TokensMove(w.store, op);
    var added := |w.family|;
    forall f: Id, t: nat | LiveIn(n, f, t)
      ensures t < added ==> LiveIn(w, f, t)
      ensures t == added && Rotates(w.store, op) ==> LiveIn(w, f, op.jwt.tokenId)
      ensures t == added && !Rotates(w.store, op) ==> f == added
    {
    }
  }

  lemma {:induction false} RunKeeps(ops: seq<Op>)
    ensures Inv(Run(ops))
    decreases |ops|
  {
    if ops != [] {
      RunKeeps(ops[..|ops| - 1]);
      NextKeeps(Run(ops[..|ops| - 1]), ops[|ops| - 1]);
    }
  }

  lemma {:induction false} RunMovesForward(ops: seq<Op>, i: nat)
    requires i <= |ops|
    ensures Forward(Run(ops[..i]).store, Run(ops).store) && Run(ops[..i]).family <= Run(ops).family
    decreases |ops|
  {
    if i == |ops| {
      assert ops[..i] == ops;
    } else {
      var most := ops[..|ops| - 1];
      assert most[..i] == ops[..i];
      RunMovesForward(most, i);
      RunKeeps(most);
      NextKeeps(Run(most), ops[|ops| - 1]);
    }
  }

  // ----- What users can rely on -----

  /** Each refresh token is accepted at most once in a whole run; a chain of rotations started by
      one login, registration or accepted invite has at most one unrevoked token at any time. */
  lemma TokensRotate(ops: seq<Op>)
    ensures var w := Run(ops);
      && (forall a, b :: 0 <= a < b < |w.used| ==> w.used[a] != w.used[b])
      && (forall f: Id, t: nat, u: nat :: LiveIn(w, f, t) && LiveIn(w, f, u) ==> t == u)
  {
    RunKeeps(ops);
  }

  /** A revoked token never works again, whatever happens later. */
  lemma RevokedNeverRevives(ops: seq<Op>, i: nat, jwt: Jwt, verifies: bool, now: int)
    requires i <= |ops| && jwt.tokenId < |Run(ops[..i]).store.tokens|
    requires Run(ops[..i]).store.tokens[jwt.tokenId].revokedAt.Some?
    ensures Refresh(Run(ops).store, jwt, verifies, now).1.Err? && Refresh(Run(ops).store, jwt, verifies, now).0 == Run(ops).store
  {
    RunMovesForward(ops, i);
  }

  /** Once a chain's last token is revoked, by logout say, the chain is dead in every later state. */
  lemma {:induction false} DeadFamiliesStayDead(ops: seq<Op>, i: nat, f: Id)
    requires i <= |ops| && f < |Run(ops[..i]).family| && (forall t: nat :: !LiveIn(Run(ops[..i]), f, t))
    ensures f < |Run(ops).family| && forall t: nat :: !LiveIn(Run(ops), f, t)
    decreases |ops|
  {
    if i == |ops| {
      assert ops[..i] == ops;
    } else {
      var most := ops[..|ops| - 1];
      assert most[..i] == ops[..i];
      DeadFamiliesStayDead(most, i, f);
      RunKeeps(most);
      FamiliesMove(Run(most), ops[|ops| - 1]);
    }
  }

  /** An invite is pending exactly while its account is inactive; an inactive account owns no
      refresh token, can neither log in nor refresh, and becomes active only through its invite. */
  lemma InactiveAccountsHoldNoTokens(ops: seq<Op>, a: nat)
    requires a < |Run(ops).store.users|
    ensures var st := Run(ops).store;
      && (st.users[a].inviteToken.Some? <==> !st.users[a].isActive)
      && (!st.users[a].isActive ==>
            && (forall t :: 0 <= t < |st.tokens| ==> st.tokens[t].userId != a)
            && (forall password, now :: Login(st, st.users[a].email, password, now).1 == Err(InvalidCredentials))
            && (forall op: Op :: !op.AcceptOp? ==> a < |Do(st, op).users| && !Do(st, op).users[a].isActive))
  {
    RunKeeps(ops);
    InactiveIsShutOut(Run(ops).store, a);
  }

  lemma InactiveIsShutOut(st: Store, a: nat)
    requires UsersOk(st.users) && TokensOk(st) && a < |st.users|
    ensures st.users[a].inviteToken.Some? <==> !st.users[a].isActive
    ensures !st.users[a].isActive ==>
      && (forall t :: 0 <= t < |st.tokens| ==> st.tokens[t].userId != a)
      && (forall password, now :: Login(st, st.users[a].email, password, now).1 == Err(InvalidCredentials))
      && (forall op: Op :: !op.AcceptOp? ==> a < |Do(st, op).users| && !Do(st, op).users[a].isActive)
  {
    if !st.users[a].isActive {
      InactiveCannotLogIn(st, a);
      hide Do, Login, UsersOk;
      forall op: Op | !op.AcceptOp? ensures a < |Do(st, op).users| && !Do(st, op).users[a].isActive {
        OnlyInvitesActivate(st, op, a);
      }
    }
  }

  lemma InactiveCannotLogIn(st: Store, a: nat)
    requires UsersOk(st.users) && a < |st.users| && !st.users[a].isActive
    ensures forall password, now :: Login(st, st.users[a].email, password, now).1 == Err(InvalidCredentials)
  {
  }

  lemma OnlyInvitesActivate(st: Store, op: Op, a: nat)
    requires a < |st.users| && !op.AcceptOp?
    ensures a < |Do(st, op).users| && Do(st, op).users[a] == st.users[a]
  {
  }

  // ----- Round trips -----

  /** A registration opens exactly its own account: that password logs in and no other does, and the
      token it hands out refreshes until the TTL has run and no longer. */
  lemma RegistrationOpensTheAccount(ops: seq<Op>, email: string, password: Id, now: int, later: int, other: Id)
    requires Register(Run(ops).store, email, password, now).1.Ok?
    ensures var (after, reply) := Register(Run(ops).store, email, password, now);
      && (Login(after, email, other, later).1.Ok? <==> other == password)
      && (Refresh(after, reply.value, true, later).1.Ok? <==> later <= now + REFRESH_TTL_MS)
  {
    var (after, reply) := Register(Run(ops).store, email, password, now);
    RunKeeps(ops);
    NextKeeps(Run(ops), RegisterOp(email, password, now));
    var id := |Run(ops).store.users|;
    assert after.users[id].email == email;
    assert FindByEmail(after.users, email) == Some(id);
  }

  /** A rotation stays with the token's own user: the new token refreshes until its TTL has run, and
      the presented one never again. */
  lemma RotationHandsOver(ops: seq<Op>, jwt: Jwt, now: int, later: int)
    requires Refresh(Run(ops).store, jwt, true, now).1.Ok?
    ensures var st := Run(ops).store;
      var (after, reply) := Refresh(st, jwt, true, now);
      && jwt.tokenId < |st.tokens| && reply.value.sub == jwt.sub == st.tokens[jwt.tokenId].userId
      && reply.value.tokenId == |st.tokens| < |after.tokens| && after.tokens[reply.value.tokenId].userId == jwt.sub
      && (Refresh(after, reply.value, true, later).1.Ok? <==> later <= now + REFRESH_TTL_MS)
      && Refresh(after, jwt, true, later).1 == Err(TokenRevoked)
  {
    RunKeeps(ops);
  }

  lemma InviteIsFound(ops: seq<Op>, email: string, restaurantId: Id, inviteToken: Id, sent: int)
    requires InviteOwner(Run(ops).store, email, restaurantId, inviteToken, sent).1.Ok?
    ensures var id := |Run(ops).store.users|;
      var invited := InviteOwner(Run(ops).store, email, restaurantId, inviteToken, sent).0;
      && UsersOk(invited.users) && id < |invited.users| && invited.users[id].email == email
      && !invited.users[id].isActive && invited.users[id].inviteExpiresAt == Some(sent + INVITE_TTL_MS)
      && FindByEmail(invited.users, email) == Some(id) && FindByInvite(invited.users, inviteToken) == Some(id)
  {
    var id := |Run(ops).store.users|;
    var invited := InviteOwner(Run(ops).store, email, restaurantId, inviteToken, sent).0;
    RunKeeps(ops);
    NextKeeps(Run(ops), InviteOwnerOp(email, restaurantId, inviteToken, sent));
    assert invited.users[id].email == email && invited.users[id].inviteToken == Some(inviteToken);
    hide Run, InviteOwner, TokensOk, FamiliesOk, Forward;
    FoundOnce(invited.users, id);
  }

  lemma FoundOnce(users: seq<User>, id: nat)
    requires UsersOk(users) && id < |users| && users[id].inviteToken.Some?
    ensures FindByEmail(users, users[id].email) == Some(id) && FindByInvite(users, users[id].inviteToken.value) == Some(id)
  {
  }

  /** An invited owner gets in with the password they set, exactly within the invite's seven days, and
      the invite works once. */
  lemma InviteRoundTrip(ops: seq<Op>, email: string, restaurantId: Id, inviteToken: Id, sent: int, password: Id, at: int, other: Id, later: int)
    requires InviteOwner(Run(ops).store, email, restaurantId, inviteToken, sent).1.Ok?
    ensures var invited := InviteOwner(Run(ops).store, email, restaurantId, inviteToken, sent).0;
      var (joined, reply) := AcceptInvite(invited, inviteToken, password, at);
      && Login(invited, email, other, at).1.Err?
      && (reply.Ok? <==> at <= sent + INVITE_TTL_MS)
      && (reply.Ok? ==>
            && (Login(joined, email, other, later).1.Ok? <==> other == password)
            && AcceptInvite(joined, inviteToken, other, later).1 == Err(InvalidInvite))
  {
    var st := Run(ops).store;
    var id := |st.users|;
    var invited := InviteOwner(st, email, restaurantId, inviteToken, sent).0;
    InviteIsFound(ops, email, restaurantId, inviteToken, sent);
    hide InviteOwner, UsersOk;
    if at <= sent + INVITE_TTL_MS { JoinedOnce(invited, inviteToken, password, at, id); }
  }

  lemma JoinedOnce(invited: Store, inviteToken: Id, password: Id, at: int, id: nat)
    requires UsersOk(invited.users) && FindByInvite(invited.users, inviteToken) == Some(id)
    requires AcceptInvite(invited, inviteToken, password, at).1.Ok?
    ensures var joined := AcceptInvite(invited, inviteToken, password, at).0;
      && FindByInvite(joined.users, inviteToken).None?
      && FindByEmail(joined.users, invited.users[id].email) == Some(id)
      && joined.users[id] == Activated(invited.users[id], password)
  {
    var joined := AcceptInvite(invited, inviteToken, password, at).0;
    assert joined.users == invited.users[id := Activated(invited.users[id], password)];
    assert joined.users[id].email == invited.users[id].email;
  }

  /** Logging out with a token that verifies ends its chain: the token is refused from then on, and if it
      was the chain's live one, the chain has none left. No other token changes. */
  lemma LogoutEndsTheChain(ops: seq<Op>, jwt: Jwt, now: int, later: int)
    requires jwt.tokenId < |Run(ops).store.tokens|
    ensures var w := Run(ops);
      var after := Next(w, LogoutOp(jwt, true, now));
      && Refresh(after.store, jwt, true, later).1 == Err(TokenRevoked)
      && jwt.tokenId < |w.family|
      && (LiveIn(w, w.family[jwt.tokenId], jwt.tokenId) ==> forall t: nat :: !LiveIn(after, w.family[jwt.tokenId], t))
      && |after.store.tokens| == |w.store.tokens|
      && forall t :: 0 <= t < |w.store.tokens| && t != jwt.tokenId ==> after.store.tokens[t] == w.store.tokens[t]
  {
    RunKeeps(ops);
    var w := Run(ops);
    var after := Next(w, LogoutOp(jwt, true, now));
    forall f: Id, t: nat | LiveIn(after, f, t) ensures LiveIn(w, f, t) && t != jwt.tokenId {}
  }
}
