/** The token blacklist and the decision chains of src/auth/jwt_service.py. Times are
    integer seconds supplied by the caller; bcrypt and the JWT codec are parameters. */
module JwtService {
  import opened Wrappers
  import opened Http

  /** The blacklist entries still in force at `now`: those expiring strictly later. */
  function Unexpired(entries: map<string, int>, now: int): (live: map<string, int>)
    ensures forall j :: j in live <==> j in entries && entries[j] > now
    ensures forall j :: j in live ==> live[j] == entries[j]
  {
    map j | j in entries && entries[j] > now :: entries[j]
  }

  /** Python truthiness of an optional `jti`. */
  predicate Given(jti: Option<string>) {
    jti.Some? && jti.value != ""
  }

  /** The entries after `revoke_token(jti, expiresAt)` at `now`. */
  function AfterRevoke(entries: map<string, int>, jti: string, expiresAt: int, now: int): map<string, int> {
    if jti == "" then entries else Unexpired(entries, now)[jti := expiresAt]
  }

  /** The answer of `is_token_revoked(jti)` at `now`. */
  predicate RevokedAt(entries: map<string, int>, jti: Option<string>, now: int) {
    Given(jti) && jti.value in entries && entries[jti.value] > now
  }

  /** The entries after `is_token_revoked(jti)`, which reads the clock twice: the cleanup
      at `now`, then the pop of an entry expired by `later`. */
  function AfterCheck(entries: map<string, int>, jti: Option<string>, now: int, later: int): map<string, int> {
    if !Given(jti) then entries
    else
      var live := Unexpired(entries, now);
      if jti.value in live && live[jti.value] <= later then live - {jti.value} else live
  }

  /** After `revoke_token(j, e)`, `is_token_revoked(j)` holds exactly before time `e`,
      whatever the blacklist held before and whenever the revocation happened. */
  lemma RevokeThenCheck(entries: map<string, int>, jti: string, expiresAt: int, revokedAt: int, checkedAt: int)
    requires jti != ""
    ensures RevokedAt(AfterRevoke(entries, jti, expiresAt, revokedAt), Some(jti), checkedAt) <==> checkedAt < expiresAt
  {
  }

  /** An empty `jti` is never revoked, and revoking it records nothing. */
  lemma EmptyJtiIgnored(entries: map<string, int>, expiresAt: int, now: int)
    ensures AfterRevoke(entries, "", expiresAt, now) == entries
    ensures !RevokedAt(entries, Some(""), now) && !RevokedAt(entries, None, now)
  {
  }

  /** A check does not change any answer: after checking any token, every token is
      revoked at a later time exactly when it was before. */
  lemma CheckIsStable(entries: map<string, int>, jti: Option<string>, other: Option<string>,
                      now: int, later: int, after: int)
    requires now <= later <= after
    ensures RevokedAt(AfterCheck(entries, other, now, later), jti, after) <==> RevokedAt(entries, jti, after)
  {
  }

  /** Revoking one token leaves the answer for every other token unchanged. */
  lemma RevokeIsLocal(entries: map<string, int>, jti: string, expiresAt: int, now: int, other: string)
    requires other != jti
    ensures RevokedAt(AfterRevoke(entries, jti, expiresAt, now), Some(other), now) <==> RevokedAt(entries, Some(other), now)
  {
  }

  /** `_TOKEN_BLACKLIST`: revoked `jti` to the time its token expires. */
  class TokenBlacklist {
    var entries: map<string, int>

    constructor ()
      ensures entries == map[]
    {
      entries := map[];
    }

    /** `_cleanup_expired_tokens`: pops every entry whose expiry is at or before `now`. */
    method CleanupExpired(now: int)
      modifies this
      ensures entries == Unexpired(old(entries), now)
    {
      var expired := set j | j in entries && entries[j] <= now;
      ghost var popped: set<string> := {};
      while expired != {}
        invariant expired !! popped
        invariant expired + popped == set j | j in old(entries) && old(entries)[j] <= now
        invariant entries == map j | j in old(entries) && j !in popped :: old(entries)[j]
        decreases expired
      {
        var j :| j in expired;
        entries := map k | k in entries && k != j :: entries[k];
        expired := expired - {j};
        popped := popped + {j};
      }
    }

    /** `revoke_token`: nothing for an empty `jti`; otherwise a cleanup, then the entry. */
    method Revoke(jti: string, expiresAt: int, now: int)
      modifies this
      ensures entries == AfterRevoke(old(entries), jti, expiresAt, now)
    {
      if jti == "" {
        return;
      }
      CleanupExpired(now);
      entries := entries[jti := expiresAt];
    }

    /** `is_token_revoked`: false for a missing `jti`; otherwise a cleanup at `now`, a lookup,
        and a comparison with the clock read again at `later`, popping an entry expired by then. */
    method IsRevoked(jti: Option<string>, now: int, later: int) returns (revoked: bool)
      requires now <= later
      modifies this
      ensures revoked == RevokedAt(old(entries), jti, later)
      ensures entries == AfterCheck(old(entries), jti, now, later)
    {
      if !Given(jti) {
        return false;
      }
      CleanupExpired(now);
      if jti.value !in entries {
        return false;
      }
      var expiresAt := entries[jti.value];
      if expiresAt <= later {
        entries := map k | k in entries && k != jti.value :: entries[k];
        return false;
      }
      return true;
    }
  }

  // ---- users and credentials ----

  /** A row of `users`; an absent or empty password hash is `""`. */
  datatype UserRecord = UserRecord(
    employeeId: string, name: string, email: string, passwordHash: string,
    grade: string, role: string, isActive: bool)

  /** `get_user_by_identifier`: the first user whose email or employee id is the identifier. */
  function FindUser(users: seq<UserRecord>, identifier: string): (r: Option<UserRecord>)
    ensures r.None? <==> forall u :: u in users ==> u.email != identifier && u.employeeId != identifier
    ensures r.Some? ==> r.value in users && (r.value.email == identifier || r.value.employeeId == identifier)
  {
    if users == [] then None
    else if users[0].email == identifier || users[0].employeeId == identifier then Some(users[0])
    else FindUser(users[1..], identifier)
  }

  /** The user without the password hash. */
  datatype AuthenticatedUser = AuthenticatedUser(
    employeeId: string, name: string, email: string, grade: string, role: string, isActive: bool)

  /** `authenticate_user`; `checkpw` stands for bcrypt, which answers false on a malformed hash. */
  function Authenticate(users: seq<UserRecord>, identifier: string, password: string,
                        checkpw: (string, string) -> bool): (r: Option<AuthenticatedUser>)
    ensures r.None? <==> FindUser(users, identifier).None?
                         || FindUser(users, identifier).value.passwordHash == ""
                         || !checkpw(password, FindUser(users, identifier).value.passwordHash)
    ensures r.Some? ==> var u := FindUser(users, identifier).value;
      r.value == AuthenticatedUser(u.employeeId, u.name, u.email, u.grade, u.role, u.isActive)
  {
    match FindUser(users, identifier)
    case None => None
    case Some(u) =>
      if u.passwordHash == "" || !checkpw(password, u.passwordHash) then None
      else Some(AuthenticatedUser(u.employeeId, u.name, u.email, u.grade, u.role, u.isActive))
  }

  /** Authentication succeeds only for a known user with a hash that bcrypt accepts. */
  lemma AuthenticatedMeansPasswordMatched(users: seq<UserRecord>, identifier: string, password: string,
                                         checkpw: (string, string) -> bool)
    requires Authenticate(users, identifier, password, checkpw).Some?
    ensures exists u :: u in users && (u.email == identifier || u.employeeId == identifier)
                        && u.passwordHash != "" && checkpw(password, u.passwordHash)
  {
    var u := FindUser(users, identifier).value;
    assert u in users;
  }

  // ---- decode_token and get_current_user ----

  /** What `jwt.decode` gives: an expired token, any other failure, or the claims. */
  datatype Decoded =
    | ExpiredSignature
    | Undecodable
    | Claims(sub: Option<string>, jti: Option<string>)

  /** `decode_token` once `is_token_revoked` has answered `revoked`. */
  function DecodeDecision(decoded: Decoded, verifyRevocation: bool, revoked: bool): (r: Result<Decoded, HttpError>)
    ensures decoded.ExpiredSignature? ==> r == Err(HttpError(401, "Token expired"))
    ensures decoded.Undecodable? ==> r == Err(HttpError(401, "Could not validate credentials"))
    ensures r == Err(HttpError(401, "Token revoked")) <==> decoded.Claims? && verifyRevocation && revoked
    ensures r.Ok? <==> decoded.Claims? && !(verifyRevocation && revoked)
    ensures r.Ok? ==> r.value == decoded
  {
    match decoded
    case ExpiredSignature => Err(HttpError(401, "Token expired"))
    case Undecodable => Err(HttpError(401, "Could not validate credentials"))
    case Claims(_, _) => if verifyRevocation && revoked then Err(HttpError(401, "Token revoked")) else Ok(decoded)
  }

  /** `decode_token`: the blacklist is consulted only for decoded claims and only when
      `verify_revocation` is set. */
  method DecodeToken(blacklist: TokenBlacklist, decoded: Decoded, verifyRevocation: bool, now: int, later: int)
    returns (r: Result<Decoded, HttpError>)
    requires now <= later
    modifies blacklist
    ensures decoded.Claims? && verifyRevocation ==>
      r == DecodeDecision(decoded, true, RevokedAt(old(blacklist.entries), decoded.jti, later))
      && blacklist.entries == AfterCheck(old(blacklist.entries), decoded.jti, now, later)
    ensures !(decoded.Claims? && verifyRevocation) ==>
      r == DecodeDecision(decoded, verifyRevocation, false) && blacklist.entries == old(blacklist.entries)
  {
    if decoded.Claims? && verifyRevocation {
      var revoked := blacklist.IsRevoked(decoded.jti, now, later);
      r := DecodeDecision(decoded, true, revoked);
    } else {
      r := DecodeDecision(decoded, verifyRevocation, false);
    }
  }

  /** What `get_current_user` returns: the user without the hash and the active flag. */
  datatype CurrentUser = CurrentUser(employeeId: string, name: string, email: string, grade: string, role: string)

  /** The checks of `get_current_user` after a successful decode, in source order. */
  function UserDecision(users: seq<UserRecord>, sub: Option<string>): (r: Result<CurrentUser, HttpError>)
    ensures !Given(sub) ==> r == Err(HttpError(401, "Invalid token payload"))
    ensures Given(sub) && FindUser(users, sub.value).None? ==> r == Err(HttpError(401, "User not found"))
    ensures Given(sub) && FindUser(users, sub.value).Some? ==>
      var u := FindUser(users, sub.value).value;
      (!u.isActive ==> r == Err(HttpError(400, "Inactive user")))
      && (u.isActive ==> r == Ok(CurrentUser(u.employeeId, u.name, u.email, u.grade, u.role)))
  {
    if !Given(sub) then Err(HttpError(401, "Invalid token payload"))
    else
      match FindUser(users, sub.value)
      case None => Err(HttpError(401, "User not found"))
      case Some(u) =>
        if !u.isActive then Err(HttpError(400, "Inactive user"))
        else Ok(CurrentUser(u.employeeId, u.name, u.email, u.grade, u.role))
  }

  /** Only an active, known user gets through, and every refusal is a 401 except the
      inactive user's 400. */
  lemma CurrentUserIsActive(users: seq<UserRecord>, sub: Option<string>)
    ensures UserDecision(users, sub).Ok? ==> exists u :: u in users && u.isActive
                                              && (u.email == sub.value || u.employeeId == sub.value)
    ensures UserDecision(users, sub).Err? ==>
      (UserDecision(users, sub).error.status == 400 <==> UserDecision(users, sub).error.detail == "Inactive user")
  {
    if UserDecision(users, sub).Ok? {
      assert FindUser(users, sub.value).value in users;
    }
  }

  /** `get_current_user`: `verify_token` (decoding with revocation), then the user checks. */
  method GetCurrentUser(blacklist: TokenBlacklist, users: seq<UserRecord>, decoded: Decoded, now: int, later: int)
    returns (r: Result<CurrentUser, HttpError>)
    requires now <= later
    modifies blacklist
    ensures var d := DecodeDecision(decoded, true, decoded.Claims? && RevokedAt(old(blacklist.entries), decoded.jti, later));
      (d.Err? ==> r == Err(d.error))
      && (d.Ok? ==> r == UserDecision(users, decoded.sub))
    ensures decoded.Claims? ==> blacklist.entries == AfterCheck(old(blacklist.entries), decoded.jti, now, later)
    ensures !decoded.Claims? ==> blacklist.entries == old(blacklist.entries)
  {
    var payload := DecodeToken(blacklist, decoded, true, now, later);
    if payload.Err? {
      return Err(payload.error);
    }
    r := UserDecision(users, payload.value.sub);
  }
}
