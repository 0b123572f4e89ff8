/** The refresh token store: one row per account holding the account's
    current refresh token, or null once the account logged out. Signing and
    checking a JWT's signature and expiry happen in a library and are the
    function `decode`: the payload a token carries, or the JWT error. */
module RefreshTokenUtil {
  import opened Common

  /** The claims the tokens carry. */
  datatype JwtPayload = JwtPayload(id: string, email: string, scope: string)

  /** `verifyToken`: the token must decode, its account must have a stored
      row, and the row must hold this very token. */
  function Verify(refreshTokens: map<string, Option<string>>, decode: string -> Result<JwtPayload>, token: string)
    : Result<JwtPayload>
  {
    var decoded := decode(token);
    if decoded.Err? then decoded
    else if decoded.value.id !in refreshTokens then Err("auth-e-05")
    else if refreshTokens[decoded.value.id].None? || refreshTokens[decoded.value.id].value != token then Err("auth-e-05")
    else decoded
  }

  /** A token verifies exactly when it decodes and is the one stored for
      its account; a token that decodes but is not stored fails with
      auth-e-05. */
  lemma VerifyIff(refreshTokens: map<string, Option<string>>, decode: string -> Result<JwtPayload>, token: string)
    ensures Verify(refreshTokens, decode, token).Ok? <==>
      decode(token).Ok? && decode(token).value.id in refreshTokens && refreshTokens[decode(token).value.id] == Some(token)
    ensures Verify(refreshTokens, decode, token).Ok? ==> Verify(refreshTokens, decode, token) == decode(token)
    ensures decode(token).Err? ==> Verify(refreshTokens, decode, token) == decode(token)
    ensures decode(token).Ok? && Verify(refreshTokens, decode, token).Err? ==>
      Verify(refreshTokens, decode, token) == Err("auth-e-05")
  {
  }

  /** After a new token is stored for an account, the token just stored
      verifies if it decodes to that account, and every other token of the
      account fails; other accounts are unaffected. */
  lemma NewTokenRevokesOld(refreshTokens: map<string, Option<string>>, decode: string -> Result<JwtPayload>,
                           accountId: string, newToken: string, oldToken: string)
    requires decode(oldToken).Ok? && decode(oldToken).value.id == accountId && oldToken != newToken
    ensures Verify(refreshTokens[accountId := Some(newToken)], decode, oldToken) == Err("auth-e-05")
    ensures decode(newToken).Ok? && decode(newToken).value.id == accountId ==>
      Verify(refreshTokens[accountId := Some(newToken)], decode, newToken) == decode(newToken)
  {
  }

  /** Once an account's row holds null, no token of that account
      verifies. */
  lemma NullRevokesAll(refreshTokens: map<string, Option<string>>, decode: string -> Result<JwtPayload>,
                       accountId: string, token: string)
    requires decode(token).Ok? && decode(token).value.id == accountId
    ensures Verify(refreshTokens[accountId := None], decode, token) == Err("auth-e-05")
  {
  }

  /** The store over the refresh token repository, rows by account id. */
  class RefreshTokenUtil {
    var refreshTokens: map<string, Option<string>>
    const decode: string -> Result<JwtPayload>

    constructor(decode: string -> Result<JwtPayload>)
      ensures refreshTokens == map[] && this.decode == decode
    {
      refreshTokens := map[];
      this.decode := decode;
    }

    /** `generateToken`; `token` is the signed JWT the library produces.
        The account's row is found or created, then holds the token. */
    method GenerateToken(accountId: string, token: string) returns (t: string)
      modifies this
      ensures t == token
      ensures refreshTokens == old(refreshTokens)[accountId := Some(token)]
    {
      var refreshToken: Option<string> := if accountId in refreshTokens then refreshTokens[accountId] else None;
      refreshToken := Some(token);
      refreshTokens := refreshTokens[accountId := refreshToken];
      t := token;
    }

    /** `verifyToken`. */
    method VerifyToken(token: string) returns (r: Result<JwtPayload>)
      ensures r == Verify(refreshTokens, decode, token)
    {
      var payload := decode(token);
      if payload.Err? {
        return payload;
      }
      if payload.value.id !in refreshTokens {
        return Err("auth-e-05");
      }
      var refreshToken := refreshTokens[payload.value.id];
      if refreshToken.None? || refreshToken.value != token {
        return Err("auth-e-05");
      }
      r := payload;
    }
  }
}
