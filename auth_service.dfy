/** The authentication service: registration, login, token refresh,
    logout and password change, over the account repository and the
    refresh token rows. Password hashing and matching, and the signing of
    access and refresh tokens, happen in libraries: hashing and matching are
    the functions `encode` and `matches`, and the signed tokens a call
    produces are parameters. */
module AuthService {
  import opened Common
  import Catalog
  import opened Accounts
  import RT = RefreshTokenUtil

  /** The tokens a call hands back; `refreshToken` is null on refresh. */
  datatype AuthResponse = AuthResponse(accessToken: string, refreshToken: Option<string>)

  /** Emails are unique among accounts. */
  ghost predicate EmailsUnique(accounts: map<string, Account>)
  {
    forall i, j :: i in accounts && j in accounts && i != j ==> accounts[i].email != accounts[j].email
  }

  predicate EmailTaken(accounts: map<string, Account>, email: string)
  {
    exists id :: id in accounts && accounts[id].email == email
  }

  /** The checks of `login`, in their order: the email must exist, the
      account must hold the requested role, and the password must match.
      On success, the account's id. */
  ghost function LoginCheck(accounts: map<string, Account>, matches: (string, string) -> bool,
                            email: string, role: Catalog.Role, password: string): Result<string>
  {
    if !EmailTaken(accounts, email) then Err("auth-e-02")
    else
      var id :| id in accounts && accounts[id].email == email;
      if role !in accounts[id].roles then Err("auth-e-03")
      else if !matches(password, accounts[id].password) then Err("auth-e-04")
      else Ok(id)
  }

  /** Login succeeds exactly for the account with the email, when it holds
      the role and the password matches its hash; an unknown email fails
      whatever the role and password, and a missing role fails whatever the
      password. */
  lemma LoginCheckIff(accounts: map<string, Account>, matches: (string, string) -> bool,
                      email: string, role: Catalog.Role, password: string, id: string)
    requires EmailsUnique(accounts) && id in accounts && accounts[id].email == email
    ensures LoginCheck(accounts, matches, email, role, password) == Ok(id) <==>
      role in accounts[id].roles && matches(password, accounts[id].password)
    ensures role !in accounts[id].roles ==> LoginCheck(accounts, matches, email, role, password) == Err("auth-e-03")
    ensures role in accounts[id].roles && !matches(password, accounts[id].password) ==>
      LoginCheck(accounts, matches, email, role, password) == Err("auth-e-04")
  {
    assert EmailTaken(accounts, email);
  }

  /** The service over the account repository and the refresh token rows. */
  class AuthService {
    var accounts: map<string, Account>
    var refreshTokens: map<string, Option<string>>
    const encode: string -> string
    const matches: (string, string) -> bool
    const decode: string -> Result<RT.JwtPayload>

    ghost predicate Valid()
      reads this
    {
      EmailsUnique(accounts)
    }

    constructor(encode: string -> string, matches: (string, string) -> bool, decode: string -> Result<RT.JwtPayload>)
      ensures Valid() && accounts == map[] && refreshTokens == map[]
      ensures this.encode == encode && this.matches == matches && this.decode == decode
    {
      accounts := map[];
      refreshTokens := map[];
      this.encode := encode;
      this.matches := matches;
      this.decode := decode;
    }

    /** `register`: fails with auth-e-01 when the email is taken. */
    method Register(email: string) returns (r: Outcome)
      ensures r == Done <==> !EmailTaken(accounts, email)
      ensures r != Done ==> r == Fail("auth-e-01")
    {
      if exists id :: id in accounts && accounts[id].email == email {
        return Fail("auth-e-01");
      }
      r := Done;
    }

    /** `verifyRegister`: re-checks the email, then stores a CONSUMER
        account with the hashed password under `newId` and the new refresh
        token for it. */
    method VerifyRegister(newId: string, email: string, password: string, accessToken: string, refreshToken: string)
      returns (r: Result<AuthResponse>)
      requires Valid() && newId !in accounts
      modifies this
      ensures Valid()
      ensures EmailTaken(old(accounts), email) ==>
        r == Err("auth-e-01") && accounts == old(accounts) && refreshTokens == old(refreshTokens)
      ensures !EmailTaken(old(accounts), email) ==>
        && r == Ok(AuthResponse(accessToken, Some(refreshToken)))
        && accounts == old(accounts)[newId := Account(email, encode(password), {Catalog.CONSUMER})]
        && refreshTokens == old(refreshTokens)[newId := Some(refreshToken)]
    {
      var checked := Register(email);
      if checked.Fail? {
        return Err(checked.code);
      }
      var hashedPassword := encode(password);
      var roles := {Catalog.CONSUMER};
      var account := Account(email, hashedPassword, roles);
      accounts := accounts[newId := account];
      refreshTokens := refreshTokens[newId := Some(refreshToken)];
      r := Ok(AuthResponse(accessToken, Some(refreshToken)));
    }

    /** `login`. */
    method Login(email: string, role: Catalog.Role, password: string, accessToken: string, refreshToken: string)
      returns (r: Result<AuthResponse>)
      requires Valid()
      modifies this
      ensures Valid() && accounts == old(accounts)
      ensures match LoginCheck(old(accounts), matches, email, role, password)
        case Err(e) => r == Err(e) && refreshTokens == old(refreshTokens)
        case Ok(id) => r == Ok(AuthResponse(accessToken, Some(refreshToken)))
                       && refreshTokens == old(refreshTokens)[id := Some(refreshToken)]
    {
      if !exists id :: id in accounts && accounts[id].email == email {
        return Err("auth-e-02");
      }
      var id :| id in accounts && accounts[id].email == email;
      var account := accounts[id];
      if role !in account.roles {
        return Err("auth-e-03");
      }
      var isMatchPassword := matches(password, account.password);
      if !isMatchPassword {
        return Err("auth-e-04");
      }
      refreshTokens := refreshTokens[id := Some(refreshToken)];
      r := Ok(AuthResponse(accessToken, Some(refreshToken)));
    }

    /** `refreshToken`: a new access token for a verified refresh token,
        and no refresh token. */
    method RefreshToken(token: string, accessToken: string) returns (r: Result<AuthResponse>)
      ensures RT.Verify(refreshTokens, decode, token).Err? ==> r == Err(RT.Verify(refreshTokens, decode, token).code)
      ensures RT.Verify(refreshTokens, decode, token).Ok? ==> r == Ok(AuthResponse(accessToken, None))
    {
      var payload := RT.Verify(refreshTokens, decode, token);
      if payload.Err? {
        return Err(payload.code);
      }
      r := Ok(AuthResponse(accessToken, None));
    }

    /** `logout`: the verified token's row is set to null. */
    method Logout(token: string) returns (r: Outcome)
      modifies this
      ensures accounts == old(accounts)
      ensures RT.Verify(old(refreshTokens), decode, token).Err? ==>
        r == Fail(RT.Verify(old(refreshTokens), decode, token).code) && refreshTokens == old(refreshTokens)
      ensures RT.Verify(old(refreshTokens), decode, token).Ok? ==>
        r == Done && refreshTokens == old(refreshTokens)[RT.Verify(old(refreshTokens), decode, token).value.id := None]
    {
      var payload := RT.Verify(refreshTokens, decode, token);
      if payload.Err? {
        return Fail(payload.code);
      }
      refreshTokens := refreshTokens[payload.value.id := None];
      r := Done;
    }

    /** `changePassword`. */
    method ChangePassword(accountId: string, currentPassword: string, newPassword: string) returns (r: Outcome)
      requires Valid()
      modifies this
      ensures Valid() && refreshTokens == old(refreshTokens)
      ensures accountId !in old(accounts) ==> r == Fail("auth-e-06") && accounts == old(accounts)
      ensures accountId in old(accounts) && !matches(currentPassword, old(accounts)[accountId].password) ==>
        r == Fail("auth-e-07") && accounts == old(accounts)
      ensures accountId in old(accounts) && matches(currentPassword, old(accounts)[accountId].password) ==>
        r == Done && accounts == old(accounts)[accountId := old(accounts)[accountId].(password := encode(newPassword))]
    {
      if accountId !in accounts {
        return Fail("auth-e-06");
      }
      var account := accounts[accountId];
      var isMatchPassword := matches(currentPassword, account.password);
      if !isMatchPassword {
        return Fail("auth-e-07");
      }
      account := account.(password := encode(newPassword));
      accounts := accounts[accountId := account];
      r := Done;
    }
  }

  /** A refresh token handed out by a login verifies until the next login
      of the same account or its logout: after logout, no token of the
      account verifies. */
  lemma LoginThenLogout(refreshTokens: map<string, Option<string>>, decode: string -> Result<RT.JwtPayload>,
                        id: string, token: string, other: string)
    requires decode(token).Ok? && decode(token).value.id == id
    requires decode(other).Ok? && decode(other).value.id == id
    ensures RT.Verify(refreshTokens[id := Some(token)], decode, token).Ok?
    ensures var afterLogout := refreshTokens[id := Some(token)][id := None];
      RT.Verify(afterLogout, decode, other) == Err("auth-e-05")
  {
    RT.VerifyIff(refreshTokens[id := Some(token)], decode, token);
    RT.NullRevokesAll(refreshTokens[id := Some(token)], decode, id, other);
  }
}
