/**
 * The three account routes: POST /api/auth/signup, POST /api/auth/login and
 * PUT /api/auth/profile. Each handler takes the table and the request and
 * yields the response: the status, the JSON body and the session cookie the
 * handler sets. Signup and the profile update also yield the table
 * afterwards; login never changes the table and yields the response only.
 */
module Api {
  import opened Wrappers
  import opened Types
  import opened Db

  // Status codes, with the meanings of section 15 of RFC 9110.
  const OK: int := 200
  const CREATED: int := 201
  const BAD_REQUEST: int := 400
  const UNAUTHORIZED: int := 401
  const NOT_FOUND: int := 404
  const CONFLICT: int := 409
  const INTERNAL_SERVER_ERROR: int := 500

  /** The cookie that carries the session: the signed-in user's uid in decimal. */
  const SESSION_COOKIE: string := "userId"

  /** Thirty days, in seconds. */
  const SESSION_MAX_AGE: int := 60 * 60 * 24 * 30

  datatype Cookie = Cookie(name: string, value: string, httpOnly: bool, secure: bool, sameSite: string, maxAge: int)

  /** What a handler answers: a user without its password, or an error message. */
  datatype Body = UserBody(user: PublicUser) | ErrorBody(error: string)

  datatype Response = Response(status: int, body: Body, setCookie: Option<Cookie>)

  /** The JSON request body of signup and login; `None` stands for a missing member. */
  datatype Credentials = Credentials(username: Option<string>, password: Option<string>)

  function Reject(status: int, message: string): Response {
    Response(status, ErrorBody(message), None)
  }

  /** A request value passes the handlers' `!value` test: it is there and not the empty string. */
  predicate Present(v: Option<string>) {
    v.Some? && v.value != ""
  }

  predicate IsDigit(c: char) {
    '0' <= c <= '9'
  }

  function DigitChar(d: int): (c: char)
    requires 0 <= d < 10
    ensures IsDigit(c)
  {
    ('0' as int + d) as char
  }

  function DigitValue(c: char): (d: int)
    requires IsDigit(c)
    ensures 0 <= d < 10 && DigitChar(d) == c
  {
    c as int - '0' as int
  }

  /** `n.toString()` for a non-negative integer: decimal digits, a leading zero only for zero itself. */
  function DecimalString(n: nat): (s: string)
    decreases n
    ensures |s| >= 1
    ensures forall i :: 0 <= i < |s| ==> IsDigit(s[i])
    ensures s[0] == '0' <==> n == 0
  {
    if n < 10 then [DigitChar(n)] else DecimalString(n / 10) + [DigitChar(n % 10)]
  }

  /** The number a string of decimal digits denotes. */
  function DigitsValue(s: string): nat
    requires forall i :: 0 <= i < |s| ==> IsDigit(s[i])
  {
    if |s| == 0 then 0 else DigitsValue(s[..|s| - 1]) * 10 + DigitValue(s[|s| - 1])
  }

  /** The length of the run of digits a string starts with. */
  function DigitRun(s: string): (n: nat)
    ensures n <= |s|
    ensures forall i :: 0 <= i < n ==> IsDigit(s[i])
    ensures n < |s| ==> !IsDigit(s[n])
  {
    if |s| == 0 || !IsDigit(s[0]) then 0 else 1 + DigitRun(s[1..])
  }

  /** Decimal `parseInt`: an optional sign, then the leading run of digits; `None` is NaN. */
  function ParseInt(s: string): (r: Option<int>)
    ensures r.Some? <==>
      (|s| > 0 && IsDigit(s[0])) || (|s| > 1 && (s[0] == '-' || s[0] == '+') && IsDigit(s[1]))
  {
    if |s| > 0 && (s[0] == '-' || s[0] == '+') then
      var digits := s[1..];
      var n := DigitRun(digits);
      if n == 0 then None
      else
        var magnitude: int := DigitsValue(digits[..n]);
        Some(if s[0] == '-' then -magnitude else magnitude)
    else
      var n := DigitRun(s);
      if n == 0 then None else Some(DigitsValue(s[..n]))
  }

  /** The decimal digits of `n` denote `n`. */
  lemma {:induction false} DecimalDenotes(n: nat)
    ensures DigitsValue(DecimalString(n)) == n
    decreases n
  {
    var s := DecimalString(n);
    if n >= 10 {
      DecimalDenotes(n / 10);
      assert s[..|s| - 1] == DecimalString(n / 10);
    }
  }

  /** The uid written into the cookie is the uid read back from it. */
  lemma DecimalRoundTrip(n: nat)
    ensures ParseInt(DecimalString(n)) == Some(n)
  {
    var s := DecimalString(n);
    assert DigitRun(s) == |s|;
    assert s[..|s|] == s;
    DecimalDenotes(n);
  }

  /** The session cookie a successful signup or login sets; `production` stands for NODE_ENV. */
  function SessionCookie(uid: nat, production: bool): (c: Cookie)
    ensures c.name == SESSION_COOKIE && ParseInt(c.value) == Some(uid)
    ensures c.httpOnly && c.secure == production && c.sameSite == "lax" && c.maxAge == SESSION_MAX_AGE
  {
    DecimalRoundTrip(uid);
    Cookie(SESSION_COOKIE, DecimalString(uid), true, production, "lax", SESSION_MAX_AGE)
  }

  /** The uid a request's cookie names: `None` when signed out, `Some(None)` when it parses to NaN. */
  function SessionUid(cookie: Option<string>): Option<Option<int>> {
    if Present(cookie) then Some(ParseInt(cookie.value)) else None
  }

  /** No two stored usernames are equal up to ASCII case: what signup's lookup aims to keep. */
  predicate FoldUnique(s: Store) {
    forall u, v :: u in s.rows && v in s.rows && SameFold(s.rows[u].username, s.rows[v].username) ==> u == v
  }

  /** POST /api/auth/signup. */
  function Signup(s: Store, c: Credentials, production: bool): (r: (Store, Response))
    requires Valid(s)
    ensures Valid(r.0)
    ensures r.1.status in {BAD_REQUEST, CONFLICT, INTERNAL_SERVER_ERROR, CREATED}
    ensures r.1.status == BAD_REQUEST <==> !Present(c.username) || !Present(c.password)
    ensures r.1.status == CONFLICT <==>
      Present(c.username) && Present(c.password) && FindByUsername(s, c.username.value).Some?
    ensures r.1.status == INTERNAL_SERVER_ERROR ==> s.lastUid == MAX_ROWID
    ensures r.1.status != CREATED ==> r.0 == s && r.1.setCookie.None?
    ensures r.1.status == CREATED ==>
      var (s', uid) := (r.0, r.0.lastUid);
      && uid > s.lastUid
      && s'.rows.Keys == s.rows.Keys + {uid}
      && (forall u :: u in s.rows ==> s'.rows[u] == s.rows[u])
      && UserAt(s', uid) == UserProfile(uid, c.username.value, c.password.value, DEFAULT_USER)
      && r.1.body == UserBody(Strip(UserAt(s', uid)))
      && r.1.setCookie == Some(SessionCookie(uid, production))
  {
    if !Present(c.username) || !Present(c.password) then
      (s, Reject(BAD_REQUEST, "Username and password are required"))
    else
      var name, password := c.username.value, c.password.value;
      if FindByUsername(s, name).Some? then
        (s, Reject(CONFLICT, "Username already exists"))
      else
        MissedIsAbsent(s, name);
        match Create(s, name, password)
        case Failure(_) => (s, Reject(INTERNAL_SERVER_ERROR, "Internal server error"))
        case Success((s', uid)) =>
          match FindByUid(s', uid)
          case None => assert false; (s', Reject(INTERNAL_SERVER_ERROR, "Failed to create user"))
          case Some(user) =>
            (s', Response(CREATED, UserBody(Strip(user)), Some(SessionCookie(uid, production))))
  }

  /** POST /api/auth/login; it reads the table and never changes it. */
  function Login(s: Store, c: Credentials, production: bool): (r: Response)
    requires Valid(s)
    ensures r.status in {BAD_REQUEST, UNAUTHORIZED, OK}
    ensures r.status == BAD_REQUEST <==> !Present(c.username) || !Present(c.password)
    ensures r.status == UNAUTHORIZED <==>
      Present(c.username) && Present(c.password)
      && forall u :: u in s.rows ==>
        !(SameFold(s.rows[u].username, c.username.value) && s.rows[u].password == c.password.value)
    ensures r.status == UNAUTHORIZED ==> r == Reject(UNAUTHORIZED, "Invalid username or password")
    ensures r.status == OK ==>
      && r.body.UserBody?
      && var uid := r.body.user.uid;
      && uid in s.rows
      && SameFold(s.rows[uid].username, c.username.value)
      && s.rows[uid].password == c.password.value
      && r.body.user == Strip(UserAt(s, uid))
      && r.setCookie == Some(SessionCookie(uid, production))
  {
    if !Present(c.username) || !Present(c.password) then
      Reject(BAD_REQUEST, "Username and password are required")
    else
      match Authenticate(s, c.username.value, c.password.value)
      case None => Reject(UNAUTHORIZED, "Invalid username or password")
      case Some(user) =>
        Response(OK, UserBody(Strip(user)), Some(SessionCookie(user.uid, production)))
  }

  /** PUT /api/auth/profile, for the session named by the request's cookie. */
  function ProfilePut(s: Store, cookie: Option<string>, patch: Patch): (r: (Store, Response))
    requires Valid(s) && WellTyped(patch)
    ensures Valid(r.0)
    ensures r.1.status in {UNAUTHORIZED, INTERNAL_SERVER_ERROR, NOT_FOUND, OK}
    ensures r.1.status == UNAUTHORIZED <==> !Present(cookie)
    ensures r.1.status == INTERNAL_SERVER_ERROR <==> Present(cookie) && Filtered(patch) == {}
    ensures r.1.status == OK <==>
      && Present(cookie) && Filtered(patch) != {}
      && var uid := ParseInt(cookie.value);
      && uid.Some? && uid.value in s.rows
    ensures r.1.status != OK ==> r.0 == s
    ensures r.0.lastUid == s.lastUid && r.0.rows.Keys == s.rows.Keys
    ensures forall u :: u in s.rows && SessionUid(cookie) != Some(Some(u)) ==> r.0.rows[u] == s.rows[u]
    ensures r.1.status == OK ==>
      var uid := ParseInt(cookie.value).value;
      && r.1.body == UserBody(Strip(UserAt(r.0, uid)))
      && r.0 == Update(s, uid, patch).0
  {
    if !Present(cookie) then
      (s, Reject(UNAUTHORIZED, "Not authenticated"))
    else if Filtered(patch) == {} then
      // `update` finds no allowlisted key and answers false.
      (s, Reject(INTERNAL_SERVER_ERROR, "Failed to update profile"))
    else
      match ParseInt(cookie.value)
      case None =>
        // NaN binds as NULL: the UPDATE matches no row and the lookup finds none.
        (s, Reject(NOT_FOUND, "User not found"))
      case Some(uid) =>
        var (s', _) := Update(s, uid, patch);
        match FindByUid(s', uid)
        case None => (s', Reject(NOT_FOUND, "User not found"))
        case Some(user) => (s', Response(OK, UserBody(Strip(user)), None))
  }

  /** A name the case-insensitive lookup misses is not stored exactly either. */
  lemma MissedIsAbsent(s: Store, name: string)
    requires Valid(s) && FindByUsername(s, name).None?
    ensures !UsernameTaken(s, name)
  {
    forall u | u in s.rows
      ensures s.rows[u].username != name
    {
      assert !SameFold(s.rows[u].username, name);
    }
  }

  /** Signup never meets the UNIQUE constraint: a name its lookup misses is not stored exactly either. */
  lemma SignupAvoidsUniqueViolation(s: Store, name: string, password: string)
    requires Valid(s) && FindByUsername(s, name).None?
    ensures Create(s, name, password).Failure? ==> Create(s, name, password).error == Full
  {
    MissedIsAbsent(s, name);
  }

  /** The table's own constraint is exact: on its own, `create` stores a case variant of a taken name. */
  lemma CreateAdmitsCaseVariant()
    ensures var s := Store(map[1 := NewRow(1, "Bob", "pw")], 1);
      && Valid(s)
      && Create(s, "bob", "pw").Success?
      && SameFold(s.rows[1].username, "bob")
  {
    var s := Store(map[1 := NewRow(1, "Bob", "pw")], 1);
    assert Lower("Bob") == "bob" by {
      assert Lower("Bob")[0] == 'b';
    }
    assert !UsernameTaken(s, "bob") by {
      assert s.rows[1].username == "Bob";
      assert "Bob"[0] != "bob"[0];
    }
  }

  /** After a signup, no row but the new one matches its name up to ASCII case. */
  lemma OthersMissName(s: Store, c: Credentials, production: bool)
    requires Valid(s)
    requires Signup(s, c, production).1.status == CREATED
    ensures var s' := Signup(s, c, production).0;
      forall w :: w in s'.rows && w != s'.lastUid ==> !SameFold(s'.rows[w].username, c.username.value)
  {
    var s' := Signup(s, c, production).0;
    forall w | w in s'.rows && w != s'.lastUid
      ensures !SameFold(s'.rows[w].username, c.username.value)
    {
      assert s'.rows[w] == s.rows[w];
    }
  }

  /** Signup keeps usernames distinct up to ASCII case. */
  lemma SignupKeepsFoldUnique(s: Store, c: Credentials, production: bool)
    requires Valid(s) && FoldUnique(s)
    ensures FoldUnique(Signup(s, c, production).0)
  {
    var (s', r) := Signup(s, c, production);
    if r.status == CREATED {
      var uid := s'.lastUid;
      var name := c.username.value;
      assert s'.rows[uid].username == name;
      OthersMissName(s, c, production);
      forall u, v | u in s'.rows && v in s'.rows && SameFold(s'.rows[u].username, s'.rows[v].username)
        ensures u == v
      {
        if u != uid && v != uid {
          assert s'.rows[u] == s.rows[u] && s'.rows[v] == s.rows[v];
        }
      }
    }
  }

  /** A second signup of a name equal up to ASCII case is refused with 409. */
  lemma SignupTwiceConflicts(s: Store, c: Credentials, again: Credentials, production: bool)
    requires Valid(s)
    requires Signup(s, c, production).1.status == CREATED
    requires Present(again.username) && Present(again.password)
    requires SameFold(again.username.value, c.username.value)
    ensures Signup(Signup(s, c, production).0, again, production).1.status == CONFLICT
  {
    var s' := Signup(s, c, production).0;
    var uid := s'.lastUid;
    assert s'.rows[uid].username == c.username.value;
    assert SameFold(s'.rows[uid].username, again.username.value);
  }

  /** The credentials a signup stored log in as the account it created, and no other. */
  lemma SignupThenLogin(s: Store, c: Credentials, production: bool)
    requires Valid(s)
    requires Signup(s, c, production).1.status == CREATED
    ensures var s' := Signup(s, c, production).0;
      var r := Login(s', c, production);
      && r.status == OK
      && r.body.user.uid == s'.lastUid
      && r.body == Signup(s, c, production).1.body
  {
    var s' := Signup(s, c, production).0;
    var uid := s'.lastUid;
    var name, password := c.username.value, c.password.value;
    assert s'.rows[uid].username == name && s'.rows[uid].password == password;
    assert SameFold(s'.rows[uid].username, name);
    OthersMissName(s, c, production);
    assert Authenticate(s', name, password).Some?;
  }

  /** After a signup, its name with any other password is refused with 401. */
  lemma SignupThenWrongPassword(s: Store, c: Credentials, wrong: string, production: bool)
    requires Valid(s)
    requires Signup(s, c, production).1.status == CREATED
    requires wrong != "" && wrong != c.password.value
    ensures Login(Signup(s, c, production).0, Credentials(c.username, Some(wrong)), production).status == UNAUTHORIZED
  {
    var s' := Signup(s, c, production).0;
    var uid := s'.lastUid;
    OthersMissName(s, c, production);
    assert s'.rows[uid].password == c.password.value;
  }

  /** The cookie a signup sets opens a session on the account it created: a profile update then succeeds. */
  lemma SignupCookieOpensSession(s: Store, c: Credentials, production: bool, patch: Patch, f: Field)
    requires Valid(s) && WellTyped(patch) && Filtered(patch) != {}
    requires Signup(s, c, production).1.status == CREATED
    ensures var (s', r) := Signup(s, c, production);
      var (s'', r') := ProfilePut(s', Some(r.setCookie.value.value), patch);
      && r'.status == OK
      && r'.body.user.uid == s'.lastUid
      && UserValue(UserAt(s'', s'.lastUid), f) ==
        if f in Filtered(patch) then patch[Named(f)] else UserValue(UserAt(s', s'.lastUid), f)
  {
    var (s', r) := Signup(s, c, production);
    var uid := s'.lastUid;
    UpdateReadBack(s', uid, patch, f);
  }

  /** A 200 from the profile route shows each supplied allowlisted field as supplied, every other as stored before, and never the password. */
  lemma ProfilePutReadBack(s: Store, cookie: Option<string>, patch: Patch, f: Field)
    requires Valid(s) && WellTyped(patch)
    requires ProfilePut(s, cookie, patch).1.status == OK
    ensures var uid := ParseInt(cookie.value).value;
      var user := ProfilePut(s, cookie, patch).1.body.user;
      && user.uid == uid
      && PublicValue(user, f) ==
        if f == Password then None
        else if f in Filtered(patch) then Some(patch[Named(f)])
        else Some(UserValue(UserAt(s, uid), f))
  {
    var uid := ParseInt(cookie.value).value;
    var (s', r) := ProfilePut(s, cookie, patch);
    UpdateReadBack(s, uid, patch, f);
    StripHidesOnlyPassword(UserAt(s', uid), f);
  }
}
