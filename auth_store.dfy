/** frontend/vue-project/src/stores/auth.js: the browser's session store. It holds the
    token, the user and the expiry, mirrors them in three `localStorage` keys, and answers
    whether the session is still live. The clock (`Date.now()`, in milliseconds) is a
    parameter; the login, registration and profile requests are not part of this model. */
module AuthStore {
  import opened Wrappers
  import opened Text

  /** The lifetime used when the server gives none (or 0): one hour. */
  const DefaultLifetime: int := 3600

  /** JavaScript's `x || d` on an optional number: `d` when missing or 0. */
  function OrNumber(x: Option<int>, d: int): (r: int)
    ensures x.Some? && x.value != 0 ==> r == x.value
    ensures x.None? || x.value == 0 ==> r == d
  {
    if x.Some? && x.value != 0 then x.value else d
  }

  /** `computeExpiry`: the current second (the millisecond clock floored) plus the lifetime. */
  function ComputeExpiry(expiresIn: Option<int>, nowMs: int): (e: int)
    ensures var issued := e - OrNumber(expiresIn, DefaultLifetime);
      issued * 1000 <= nowMs < issued * 1000 + 1000
  {
    nowMs / 1000 + OrNumber(expiresIn, DefaultLifetime)
  }

  /** The user object the store keeps; JavaScript's missing fields are `None`. */
  datatype User = User(employeeId: Option<string>, role: Option<string>, name: Option<string>)

  /** A string field that is present and non-empty (JavaScript truthiness). */
  function Truthy(s: Option<string>): (r: Option<string>)
    ensures r.Some? <==> s.Some? && s.value != ""
    ensures r.Some? ==> r == s
  {
    if s.Some? && s.value != "" then s else None
  }

  /** The store's state. `expiresAt` is seconds since the epoch. */
  datatype AuthState = AuthState(token: string, user: Option<User>, expiresAt: Option<int>)

  /** The `isAuthenticated` getter: no token is never authenticated, a token without an
      expiry always is, and otherwise the expiry must lie after now. */
  function IsAuthenticated(s: AuthState, nowMs: int): (live: bool)
    ensures live ==> s.token != ""
    ensures s.token != "" && OrNumber(s.expiresAt, 0) == 0 ==> live
    ensures s.token != "" && OrNumber(s.expiresAt, 0) != 0 ==> (live <==> s.expiresAt.value * 1000 > nowMs)
  {
    if s.token == "" then false
    else if s.expiresAt.None? || s.expiresAt.value == 0 then true
    else s.expiresAt.value * 1000 > nowMs
  }

  /** The `role` getter: the user's role when there is a user with a non-empty role. */
  function Role(s: AuthState): (r: Option<string>)
    ensures r.Some? <==> s.user.Some? && s.user.value.role.Some? && s.user.value.role.value != ""
    ensures r.Some? ==> r == s.user.value.role
  {
    if s.user.None? then None else Truthy(s.user.value.role)
  }

  const Traveler: string := "Traveler"

  /** The `employeeName` getter: the name, else the employee id, else "Traveler". */
  function EmployeeName(s: AuthState): (n: string)
    ensures n != ""
    ensures s.user.Some? && Truthy(s.user.value.name).Some? ==> n == s.user.value.name.value
    ensures s.user.Some? && Truthy(s.user.value.name).None? && Truthy(s.user.value.employeeId).Some? ==>
      n == s.user.value.employeeId.value
    ensures s.user.None? || (Truthy(s.user.value.name).None? && Truthy(s.user.value.employeeId).None?) ==>
      n == Traveler
  {
    if s.user.Some? && Truthy(s.user.value.name).Some? then s.user.value.name.value
    else if s.user.Some? && Truthy(s.user.value.employeeId).Some? then s.user.value.employeeId.value
    else Traveler
  }

  // ---------------------------------------------------------------------------
  // localStorage

  /** The three keys the store mirrors: `travel_portal_token`, `travel_portal_user` (the user
      as JSON) and `travel_portal_exp` (the expiry as a decimal string). */
  datatype Storage = Storage(token: Option<string>, user: Option<User>, exp: Option<string>)

  /** `Number(s)` restricted to the strings the store writes itself: optionally signed decimal
      integers, and the empty string, which is 0. Every other string is mapped to `None`, which
      stands for NaN; that is exact only for strings that are no JavaScript numeric literal.
      Whitespace padding, a leading `+`, fractions, exponents, hexadecimal and `Infinity`, which
      `Number` accepts, are outside this model. */
  function ParseNumber(s: string): (n: Option<int>)
  {
    if s == "" then Some(0)
    else if IsDigits(s) then Some(DigitsValue(s))
    else if s[0] == '-' && |s| > 1 && IsDigits(s[1..]) then Some(0 - DigitsValue(s[1..]) as int)
    else None
  }

  /** `Number` reads back what `String` wrote. */
  lemma ParseNumberRoundTrip(i: int)
    ensures ParseNumber(IntToString(i)) == Some(i)
  {
    if i < 0 {
      var s := IntToString(i);
      assert s[1..] == NatToString(-i);
      assert !IsDigits(s);
      NatToStringValue(-i);
    } else {
      NatToStringValue(i);
    }
  }

  /** The expiry the store starts with: `Number(stored) || null`. */
  function RestoredExpiry(exp: Option<string>): (e: Option<int>)
    ensures e.Some? ==> e.value != 0
  {
    var n := if exp.None? then Some(0) else ParseNumber(exp.value);
    if n.Some? && n.value != 0 then n else None
  }

  /** The initial state, read from storage: a missing token is "". */
  function Restored(stored: Storage): (s: AuthState)
    ensures s.token == (if stored.token.Some? then stored.token.value else "")
    ensures s.user == stored.user
    ensures s.expiresAt == RestoredExpiry(stored.exp)
  {
    AuthState(if stored.token.Some? then stored.token.value else "", stored.user, RestoredExpiry(stored.exp))
  }

  /** What `persistSession` writes to storage. */
  function StorageOf(s: AuthState): Storage {
    Storage(Some(s.token), s.user, if s.expiresAt.Some? then Some(IntToString(s.expiresAt.value)) else None)
  }

  /** A persisted session reloads as it was, except that an expiry of 0 comes back as none;
      either way the reloaded store answers `isAuthenticated` the same at every moment. */
  lemma ReloadRestoresSession(s: AuthState, nowMs: int)
    requires s.expiresAt.Some?
    ensures s.expiresAt.value != 0 ==> Restored(StorageOf(s)) == s
    ensures IsAuthenticated(Restored(StorageOf(s)), nowMs) == IsAuthenticated(s, nowMs)
  {
    ParseNumberRoundTrip(s.expiresAt.value);
  }

  /** The login or registration reply `persistSession` is given. */
  datatype Payload = Payload(token: string, expiresAt: Option<int>, expiresIn: Option<int>,
                             employeeId: Option<string>, role: Option<string>, name: Option<string>)

  /** The state `persistSession` sets: the reply's expiry when it has one, else a computed one. */
  function PersistedState(p: Payload, nowMs: int): (s: AuthState)
    ensures s.token == p.token && s.expiresAt.Some?
    ensures OrNumber(p.expiresAt, 0) != 0 ==> s.expiresAt == p.expiresAt
    ensures OrNumber(p.expiresAt, 0) == 0 ==> s.expiresAt == Some(ComputeExpiry(p.expiresIn, nowMs))
    ensures s.user == Some(User(p.employeeId, p.role, p.name))
  {
    AuthState(p.token, Some(User(p.employeeId, p.role, p.name)),
              Some(OrNumber(p.expiresAt, ComputeExpiry(p.expiresIn, nowMs))))
  }

  /** A session persisted with a token and a positive lifetime is live at once, and stops
      being live once its lifetime has passed. */
  lemma FreshSessionIsLive(p: Payload, nowMs: int, laterMs: int)
    requires p.token != "" && OrNumber(p.expiresAt, 0) == 0
    requires OrNumber(p.expiresIn, DefaultLifetime) > 0 && nowMs >= 0
    requires laterMs >= (nowMs / 1000 + OrNumber(p.expiresIn, DefaultLifetime)) * 1000
    ensures IsAuthenticated(PersistedState(p, nowMs), nowMs)
    ensures !IsAuthenticated(PersistedState(p, nowMs), laterMs)
  {
  }

  /** The signed-out state, and the storage with all three keys removed. */
  const SignedOut: AuthState := AuthState("", None, None)
  const Cleared: Storage := Storage(None, None, None)

  /** After sign-out the store is not authenticated, has no role and greets a "Traveler",
      and a reload keeps it signed out. */
  lemma SignedOutIsFinal(nowMs: int)
    ensures !IsAuthenticated(SignedOut, nowMs) && Role(SignedOut).None? && EmployeeName(SignedOut) == Traveler
    ensures Restored(Cleared) == SignedOut
  {
  }

  /** The Pinia store: its state fields and the browser storage it mirrors. */
  class Store {
    var token: string
    var user: Option<User>
    var expiresAt: Option<int>
    var storage: Storage

    function State(): AuthState
      reads this
    {
      AuthState(token, user, expiresAt)
    }

    /** The store's initial state is read from storage, which is left as it was. */
    constructor (stored: Storage)
      ensures State() == Restored(stored)
      ensures storage == stored
    {
      token := if stored.token.Some? then stored.token.value else "";
      user := stored.user;
      expiresAt := RestoredExpiry(stored.exp);
      storage := stored;
    }

    /** `persistSession`: set the three fields and write all three keys. */
    method PersistSession(p: Payload, nowMs: int)
      modifies this
      ensures State() == PersistedState(p, nowMs)
      ensures storage == StorageOf(State())
    {
      token := p.token;
      expiresAt := Some(OrNumber(p.expiresAt, ComputeExpiry(p.expiresIn, nowMs)));
      user := Some(User(p.employeeId, p.role, p.name));
      storage := Storage(Some(token), user, Some(IntToString(expiresAt.value)));
    }

    /** `forceLogout`: clear the three fields and remove the three keys. */
    method ForceLogout()
      modifies this
      ensures State() == SignedOut && storage == Cleared
    {
      token := "";
      user := None;
      expiresAt := None;
      storage := Cleared;
    }

    /** `logout`: the logout request is sent only when there is a token; whether it fails
        or not, the store ends signed out. `requestFailed` stands for the request's outcome. */
    method Logout(requestFailed: bool) returns (requested: bool)
      modifies this
      ensures requested <==> old(token) != ""
      ensures State() == SignedOut && storage == Cleared
    {
      requested := token != "";
      ForceLogout();
    }
  }
}
