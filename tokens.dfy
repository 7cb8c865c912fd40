/**
 * Per-user OAuth tokens of the enhanced and OAuth variants, keyed by the
 * chat user id. Times are whole seconds on the server's clock.
 */
module Tokens {
  import opened Wrappers

  /** The stored `expires_at` column: absent, a parseable timestamp, or text that fails to parse. */
  datatype Expiry = NoExpiry | ExpiresAt(time: int) | Unparseable

  datatype TokenRow = TokenRow(
    mattermostUsername: string,
    accessToken: string,
    refreshToken: Option<string>,
    forgejoUsername: string,
    expiresAt: Expiry)

  /** What a lookup hands to the slash-command handler. */
  datatype Credential = Credential(accessToken: string, forgejoUsername: string)

  /** The code host's token-endpoint answer. */
  datatype TokenResponse = TokenResponse(accessToken: string, refreshToken: Option<string>, expiresIn: Option<int>)

  /** Lifetime assumed when the token endpoint gives no `expires_in`. */
  const DefaultExpiresIn: int := 3600

  /** Whether a stored expiry lets the token be used at `now`. */
  predicate Unexpired(e: Expiry, now: int) {
    match e
    case NoExpiry => true
    case ExpiresAt(t) => now < t
    case Unparseable => false
  }

  class TokenStore {
    var rows: map<string, TokenRow>

    constructor ()
      ensures rows == map[]
    {
      rows := map[];
    }

    /**
     * `get_user_token` of the enhanced variant: a credential exactly when a
     * row exists and its expiry admits `now`. An expired row is reported as
     * missing but stays stored.
     */
    function GetUserToken(userId: string, now: int): (r: Option<Credential>)
      reads this
      ensures r.Some? <==> userId in rows && Unexpired(rows[userId].expiresAt, now)
      ensures r.Some? ==> r.value == Credential(rows[userId].accessToken, rows[userId].forgejoUsername)
    {
      if userId !in rows then None
      else
        var row := rows[userId];
        if Unexpired(row.expiresAt, now) then Some(Credential(row.accessToken, row.forgejoUsername)) else None
    }

    /** `get_user_token` of the OAuth variant, which never looks at the expiry. */
    function GetStoredToken(userId: string): (r: Option<Credential>)
      reads this
      ensures r.Some? <==> userId in rows
      ensures r.Some? ==> r.value == Credential(rows[userId].accessToken, rows[userId].forgejoUsername)
    {
      if userId in rows then Some(Credential(rows[userId].accessToken, rows[userId].forgejoUsername)) else None
    }

    /** `delete_user_token`: removes the user's row and reports whether there was one. */
    method DeleteUserToken(userId: string) returns (deleted: bool)
      modifies this
      ensures deleted <==> userId in old(rows)
      ensures rows == old(rows) - {userId}
      ensures forall t :: GetUserToken(userId, t).None?
    {
      deleted := userId in rows;
      rows := rows - {userId};
    }

    /**
     * `save_user_token` (insert or replace): the new token is usable exactly
     * until `now` plus its lifetime (3600 seconds when the endpoint gave none),
     * and no other user's token changes.
     */
    method SaveUserToken(userId: string, mattermostUsername: string, token: TokenResponse, forgejoUsername: string, now: int)
      modifies this
      ensures rows == old(rows)[userId := TokenRow(mattermostUsername, token.accessToken, token.refreshToken, forgejoUsername,
                                                   ExpiresAt(now + token.expiresIn.GetOr(DefaultExpiresIn)))]
      ensures forall t :: GetUserToken(userId, t).Some? <==> t < now + token.expiresIn.GetOr(DefaultExpiresIn)
      ensures forall t :: GetUserToken(userId, t).Some? ==> GetUserToken(userId, t).value == Credential(token.accessToken, forgejoUsername)
      ensures GetStoredToken(userId) == Some(Credential(token.accessToken, forgejoUsername))
      ensures forall id, t :: id != userId ==> GetUserToken(id, t) == old(GetUserToken(id, t))
    {
      var expiresAt := now + token.expiresIn.GetOr(DefaultExpiresIn);
      rows := rows[userId := TokenRow(mattermostUsername, token.accessToken, token.refreshToken, forgejoUsername, ExpiresAt(expiresAt))];
    }
  }

  /** Once a token is refused for expiry it stays refused at every later time. */
  lemma ExpiredStaysExpired(e: Expiry, now: int, later: int)
    requires now <= later && !Unexpired(e, now)
    ensures !Unexpired(e, later)
  {
  }
}
