/** AuthService: users and refresh_tokens rows changed in place, tied to the functions of Auth. */
module AuthServices {
  import opened Common
  import opened Auth

  class AuthService {
    var users: seq<User>
    var tokens: seq<RefreshRow>

    ghost function Contents(): Store
      reads this
    {
      Store(users, tokens)
    }

    constructor ()
      ensures Contents() == EMPTY
    {
      users, tokens := [], [];
    }

    method IssueTokens(userId: Id, now: int) returns (jwt: Jwt)
      modifies `tokens
      ensures (Contents(), jwt) == Auth.IssueTokens(old(Contents()), userId, now)
    {
      var tokenId := |tokens|;
      jwt := Jwt(userId, tokenId);
      tokens := tokens + [RefreshRow(userId, jwt, now + REFRESH_TTL_MS, None)];
    }

    method Register(email: string, password: Id, now: int) returns (r: Result<Jwt, AuthError>)
      modifies this
      ensures (Contents(), r) == Auth.Register(old(Contents()), email, password, now)
    {
      var existing := FindByEmail(users, email);
      if existing.Some? { return Err(EmailTaken); }
      var id := |users|;
      users := users + [User(email, Of(password), CUSTOMER, None, true, None, None)];
      var jwt := IssueTokens(id, now);
      return Ok(jwt);
    }

    method Login(email: string, password: Id, now: int) returns (r: Result<Jwt, AuthError>)
      modifies `tokens
      ensures (Contents(), r) == Auth.Login(old(Contents()), email, password, now)
    {
      var found := FindByEmail(users, email);
      if found.None? || !users[found.value].isActive { return Err(InvalidCredentials); }
      if users[found.value].passwordHash != Of(password) { return Err(InvalidCredentials); }
      var jwt := IssueTokens(found.value, now);
      return Ok(jwt);
    }

    method Refresh(jwt: Jwt, verifies: bool, now: int) returns (r: Result<Jwt, AuthError>)
      modifies `tokens
      ensures (Contents(), r) == Auth.Refresh(old(Contents()), jwt, verifies, now)
    {
      if !verifies { return Err(InvalidToken); }
      if jwt.tokenId >= |tokens| { return Err(TokenRevoked); }
      var stored := tokens[jwt.tokenId];
      if stored.hashed != jwt || stored.revokedAt.Some? || stored.expiresAt < now { return Err(TokenRevoked); }
      if jwt.sub >= |users| || !users[jwt.sub].isActive { return Err(UserInactive); }
      stored := stored.(revokedAt := Some(now));
      tokens := tokens[jwt.tokenId := stored];
      var issued := IssueTokens(jwt.sub, now);
      return Ok(issued);
    }

    method Logout(jwt: Jwt, verifies: bool, now: int)
      modifies `tokens
      ensures Contents() == Auth.Logout(old(Contents()), jwt, verifies, now)
    {
      if verifies && jwt.tokenId < |tokens| {
        tokens := tokens[jwt.tokenId := tokens[jwt.tokenId].(revokedAt := Some(now))];
      }
    }

    method InviteRestaurantStaff(email: string, role: Role, restaurantId: Id, tempPassword: Id) returns (r: Result<Id, AuthError>)
      modifies `users
      ensures (Contents(), r) == InviteStaff(old(Contents()), email, role, restaurantId, tempPassword)
    {
      var existing := FindByEmail(users, email);
      if existing.Some? { return Err(EmailTaken); }
      users := users + [User(email, Of(tempPassword), role, Some(restaurantId), true, None, None)];
      return Ok(|users| - 1);
    }

    method InviteRestaurantOwner(email: string, restaurantId: Id, inviteToken: Id, now: int) returns (r: Result<Id, AuthError>)
      modifies `users
      ensures (Contents(), r) == InviteOwner(old(Contents()), email, restaurantId, inviteToken, now)
    {
      var existing := FindByEmail(users, email);
      if existing.Some? { return Err(EmailTaken); }
      var clash := FindByInvite(users, inviteToken);
      if clash.Some? { return Err(InviteTokenTaken); }
      users := users + [User(email, Placeholder, RESTAURANT_OWNER, Some(restaurantId), false,
                             Some(inviteToken), Some(now + INVITE_TTL_MS))];
      return Ok(|users| - 1);
    }

    method AcceptInvite(inviteToken: Id, password: Id, now: int) returns (r: Result<Jwt, AuthError>)
      modifies this
      ensures (Contents(), r) == Auth.AcceptInvite(old(Contents()), inviteToken, password, now)
    {
      var found := FindByInvite(users, inviteToken);
      if found.None? { return Err(InvalidInvite); }
      var user := users[found.value];
      if user.inviteExpiresAt.None? || user.inviteExpiresAt.value < now { return Err(InvalidInvite); }
      user := user.(passwordHash := Of(password));
      user := user.(isActive := true);
      user := user.(inviteToken := None);
      user := user.(inviteExpiresAt := None);
      users := users[found.value := user];
      var jwt := IssueTokens(found.value, now);
      return Ok(jwt);
    }
  }
}
