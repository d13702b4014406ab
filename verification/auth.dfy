/** The authentication API as operations on the user table: registration,
    login, resolving a bearer token to a user, and profile update. Password
    hashing and verification and token decoding are passed in as functions;
    the table is the rows of `users` in insertion order. */
module Auth {
  import opened Outcome

  datatype User = User(
    id: int,
    email: string,
    username: string,
    fullName: string,
    passwordHash: Option<string>,
    isActive: bool,
    isPremium: bool,
    subscriptionTier: string)

  type Table = seq<User>

  /** The column constraints: ids are the primary key, emails and usernames are unique. */
  predicate Valid(t: Table) {
    forall i, j :: 0 <= i < j < |t| ==>
      t[i].id != t[j].id && t[i].email != t[j].email && t[i].username != t[j].username
  }

  /** The id the database assigns to the next row: one more than the largest. */
  function NextId(t: Table): (r: int)
    ensures r >= 1
    ensures forall u :: u in t ==> u.id < r
  {
    if |t| == 0 then 1
    else
      var rest := NextId(t[1..]);
      assert forall u :: u in t[1..] ==> u in t;
      if t[0].id + 1 > rest then t[0].id + 1 else rest
  }

  /** `pwd_context.verify`: a row without a stored hash never verifies. */
  predicate PasswordMatches(verify: (string, string) -> bool, password: string, hash: Option<string>) {
    hash.Some? && verify(password, hash.value)
  }

  // ---------------------------------------------------------------- register

  /** Some row already holds the email or the username. */
  predicate Taken(t: Table, email: string, username: string) {
    exists u :: u in t && (u.email == email || u.username == username)
  }

  /** The row `register` inserts: active, not premium, on the free tier. */
  function NewUser(t: Table, email: string, username: string, fullName: string, passwordHash: Option<string>): (u: User)
    ensures u.id == NextId(t) && u.email == email && u.username == username && u.fullName == fullName
    ensures u.passwordHash == passwordHash
    ensures u.isActive && !u.isPremium && u.subscriptionTier == "free"
  {
    User(NextId(t), email, username, fullName, passwordHash, true, false, "free")
  }

  /** Registration on a given hash column; both versions below share it. */
  function Insert(t: Table, email: string, username: string, fullName: string, passwordHash: Option<string>): (r: Outcome<(Table, User)>)
    ensures r.Fail? <==> Taken(t, email, username)
    ensures r.Fail? ==> r.code == 400 && r.detail == "User already exists"
    ensures r.Ok? ==> r.value.0 == t + [r.value.1]
    ensures r.Ok? ==> r.value.1 == NewUser(t, email, username, fullName, passwordHash)
    ensures r.Ok? && Valid(t) ==> Valid(r.value.0)
  {
    if Taken(t, email, username) then Fail(400, "User already exists")
    else
      var u := NewUser(t, email, username, fullName, passwordHash);
      var t' := t + [u];
      assert forall i :: 0 <= i < |t| ==> t'[i] == t[i] && t[i] in t;
      Ok((t', u))
  }

  /** `register` as written: the hash is computed and then dropped, so the new
      row has no password hash. */
  function RegisterAsWritten(t: Table, email: string, username: string, password: string, fullName: string,
                             hash: string -> string): (r: Outcome<(Table, User)>)
    ensures r.Fail? <==> Taken(t, email, username)
    ensures r.Fail? ==> r.code == 400 && r.detail == "User already exists"
    ensures r.Ok? ==> r.value.0 == t + [r.value.1] && r.value.1.passwordHash.None?
    ensures r.Ok? ==> r.value.1.email == email && r.value.1.isActive && r.value.1.subscriptionTier == "free"
    ensures r.Ok? && Valid(t) ==> Valid(r.value.0)
  {
    var hashed := hash(password);
    Insert(t, email, username, fullName, None)
  }

  /** `register` storing the computed hash, as the `password_hash` column intends. */
  function Register(t: Table, email: string, username: string, password: string, fullName: string,
                    hash: string -> string): (r: Outcome<(Table, User)>)
    ensures r.Fail? <==> Taken(t, email, username)
    ensures r.Fail? ==> r.code == 400 && r.detail == "User already exists"
    ensures r.Ok? ==> r.value.0 == t + [r.value.1] && r.value.1.passwordHash == Some(hash(password))
    ensures r.Ok? ==> r.value.1.email == email && r.value.1.isActive && r.value.1.subscriptionTier == "free"
    ensures r.Ok? && Valid(t) ==> Valid(r.value.0)
  {
    Insert(t, email, username, fullName, Some(hash(password)))
  }

  // ------------------------------------------------------------------- login

  /** The first row with the email, as `.first()` returns it. */
  function FindByEmail(t: Table, email: string): (r: Option<nat>)
    ensures r.Some? ==> r.value < |t| && t[r.value].email == email
                        && forall k :: 0 <= k < r.value ==> t[k].email != email
    ensures r.None? <==> forall u :: u in t ==> u.email != email
  {
    if |t| == 0 then None
    else if t[0].email == email then Some(0)
    else
      match FindByEmail(t[1..], email)
      case None => None
      case Some(k) => Some(k + 1)
  }

  /** `login`: the row with the email, when its hash verifies and it is active. */
  function Login(t: Table, email: string, password: string, verify: (string, string) -> bool): (r: Outcome<User>)
    ensures r.Ok? ==> r.value in t && r.value.email == email && r.value.isActive
                      && PasswordMatches(verify, password, r.value.passwordHash)
    ensures r.Fail? ==> r.code == 401
    ensures r.Fail? && r.detail == "Invalid credentials" <==>
              (FindByEmail(t, email).None? ||
               !PasswordMatches(verify, password, t[FindByEmail(t, email).value].passwordHash))
    ensures r.Fail? && r.detail == "User account is disabled" <==>
              (FindByEmail(t, email).Some? &&
               PasswordMatches(verify, password, t[FindByEmail(t, email).value].passwordHash) &&
               !t[FindByEmail(t, email).value].isActive)
    ensures r.Ok? <==> FindByEmail(t, email).Some?
                       && PasswordMatches(verify, password, t[FindByEmail(t, email).value].passwordHash)
                       && t[FindByEmail(t, email).value].isActive
    ensures r.Ok? ==> r.value == t[FindByEmail(t, email).value]
  {
    match FindByEmail(t, email)
    case None => Fail(401, "Invalid credentials")
    case Some(k) =>
      if !PasswordMatches(verify, password, t[k].passwordHash) then Fail(401, "Invalid credentials")
      else if !t[k].isActive then Fail(401, "User account is disabled")
      else Ok(t[k])
  }

  // ----------------------------------------------------------- current user

  /** What decoding the bearer token yields: a decoding error, or the claims
      with the optional `sub`. */
  datatype Decoded = BadToken | Claims(sub: Option<int>)

  /** The first row with the id. */
  function FindById(t: Table, id: int): (r: Option<nat>)
    ensures r.Some? ==> r.value < |t| && t[r.value].id == id
                        && forall k :: 0 <= k < r.value ==> t[k].id != id
    ensures r.None? <==> forall u :: u in t ==> u.id != id
  {
    if |t| == 0 then None
    else if t[0].id == id then Some(0)
    else
      match FindById(t[1..], id)
      case None => None
      case Some(k) => Some(k + 1)
  }

  /** `get_current_user`: the row named by the token's `sub`. */
  function CurrentUser(t: Table, token: Decoded): (r: Outcome<User>)
    ensures r.Ok? ==> token.Claims? && token.sub.Some? && r.value in t && r.value.id == token.sub.value
    ensures r.Fail? ==> r.code == 401
    ensures r.Fail? && r.detail == "Invalid token" <==> token.BadToken? || token.sub.None?
    ensures r.Fail? && r.detail == "User not found" <==>
              token.Claims? && token.sub.Some? && forall u :: u in t ==> u.id != token.sub.value
    ensures r.Ok? <==> token.Claims? && token.sub.Some? && exists u :: u in t && u.id == token.sub.value
    ensures r.Ok? ==> r.value == t[FindById(t, token.sub.value).value]
  {
    if token.BadToken? || token.sub.None? then Fail(401, "Invalid token")
    else
      match FindById(t, token.sub.value)
      case None => Fail(401, "User not found")
      case Some(k) => Ok(t[k])
  }

  /** In a valid table, a token whose `sub` is a row's id resolves to that row. */
  lemma TokenResolvesToRow(t: Table, u: User)
    requires Valid(t) && u in t
    ensures CurrentUser(t, Claims(Some(u.id))) == Ok(u)
  {
    var i :| 0 <= i < |t| && t[i] == u;
    var k := FindById(t, u.id).value;
    assert t[k].id == t[i].id;
  }

  /** A token that decodes to a freshly registered user's id resolves to the new row. */
  lemma RegisteredUserResolves(t: Table, email: string, username: string, password: string, fullName: string,
                               hash: string -> string)
    requires Valid(t)
    requires Register(t, email, username, password, fullName, hash).Ok?
    ensures var r := Register(t, email, username, password, fullName, hash).value;
            CurrentUser(r.0, Claims(Some(r.1.id))) == Ok(r.1)
  {
    var r := Register(t, email, username, password, fullName, hash).value;
    assert r.1 == r.0[|t|];
    TokenResolvesToRow(r.0, r.1);
  }

  // --------------------------------------------------------- update_profile

  /** Another row than `me` holds the username. */
  predicate UsernameHeldByOther(t: Table, me: User, username: string) {
    exists u :: u in t && u.username == username && u.id != me.id
  }

  /** The edited row: a truthy full name or username replaces the old one;
      nothing else changes. */
  function Edited(me: User, fullName: Option<string>, username: Option<string>): (u: User)
    ensures u.fullName == (if Truthy(fullName) then fullName.value else me.fullName)
    ensures u.username == (if Truthy(username) then username.value else me.username)
    ensures u.id == me.id && u.email == me.email && u.passwordHash == me.passwordHash
    ensures u.isActive == me.isActive && u.isPremium == me.isPremium && u.subscriptionTier == me.subscriptionTier
  {
    var u := if Truthy(fullName) then me.(fullName := fullName.value) else me;
    if Truthy(username) then u.(username := username.value) else u
  }

  /** `update_profile`: the caller's row edited in place. A username held by
      another row is refused with nothing committed. */
  function UpdateProfile(t: Table, token: Decoded, fullName: Option<string>, username: Option<string>): (r: Outcome<(Table, User)>)
    ensures CurrentUser(t, token).Fail? ==> r == Fail(CurrentUser(t, token).code, CurrentUser(t, token).detail)
    ensures r.Fail? && r.code == 400 <==>
              CurrentUser(t, token).Ok? && Truthy(username) && UsernameHeldByOther(t, CurrentUser(t, token).value, username.value)
    ensures r.Fail? && r.code == 400 ==> r.detail == "Username already taken"
    ensures r.Ok? <==> CurrentUser(t, token).Ok?
                       && !(Truthy(username) && UsernameHeldByOther(t, CurrentUser(t, token).value, username.value))
    ensures r.Ok? ==> var me := CurrentUser(t, token).value;
              && r.value.1 == Edited(me, fullName, username)
              && |r.value.0| == |t|
              && forall k :: 0 <= k < |t| ==> r.value.0[k] == (if t[k].id == me.id then r.value.1 else t[k])
  {
    match CurrentUser(t, token)
    case Fail(code, detail) => Fail(code, detail)
    case Ok(me) =>
      if Truthy(username) && UsernameHeldByOther(t, me, username.value) then Fail(400, "Username already taken")
      else
        var u := Edited(me, fullName, username);
        Ok((seq(|t|, k requires 0 <= k < |t| => if t[k].id == me.id then u else t[k]), u))
  }

  /** A successful profile update keeps the table's uniqueness constraints. */
  lemma UpdateProfileKeepsValid(t: Table, token: Decoded, fullName: Option<string>, username: Option<string>)
    requires Valid(t)
    ensures UpdateProfile(t, token, fullName, username).Ok? ==> Valid(UpdateProfile(t, token, fullName, username).value.0)
  {
    var r := UpdateProfile(t, token, fullName, username);
    if r.Ok? {
      var me := CurrentUser(t, token).value;
      var t' := r.value.0;
      forall i, j | 0 <= i < j < |t'|
        ensures t'[i].id != t'[j].id && t'[i].email != t'[j].email && t'[i].username != t'[j].username
      {
        assert t[i] in t && t[j] in t;
        if t[i].id == me.id {
          assert t[j].id != me.id;
          assert me == t[i] by {
            var k :| 0 <= k < |t| && t[k] == me;
            assert k == i;
          }
        } else if t[j].id == me.id {
          assert me == t[j] by {
            var k :| 0 <= k < |t| && t[k] == me;
            assert k == j;
          }
        }
      }
    }
  }

  /** Re-submitting one's own username is not a conflict. */
  lemma OwnUsernameAccepted(t: Table, token: Decoded, fullName: Option<string>)
    requires Valid(t) && CurrentUser(t, token).Ok?
    ensures UpdateProfile(t, token, fullName, Some(CurrentUser(t, token).value.username)).Ok?
  {
    var me := CurrentUser(t, token).value;
    forall u | u in t && u.username == me.username
      ensures u.id == me.id
    {
      var i :| 0 <= i < |t| && t[i] == u;
      var j :| 0 <= j < |t| && t[j] == me;
      assert t[i].username == t[j].username;
    }
  }

  // ---------------------------------------------------------------- finding

  /** As written, a freshly registered user can never log in: the new row has
      no hash, and the first row with the email is the new one. */
  lemma RegisteredCannotLogIn(t: Table, email: string, username: string, password: string, fullName: string,
                              hash: string -> string, verify: (string, string) -> bool)
    requires RegisterAsWritten(t, email, username, password, fullName, hash).Ok?
    ensures Login(RegisterAsWritten(t, email, username, password, fullName, hash).value.0, email, password, verify)
            == Fail(401, "Invalid credentials")
  {
    var t' := RegisterAsWritten(t, email, username, password, fullName, hash).value.0;
    NewRowFoundByEmail(t, t', email);
  }

  /** With the hash stored, the same user logs in, given that the verifier
      accepts a password against its own hash. */
  lemma RegisteredCanLogIn(t: Table, email: string, username: string, password: string, fullName: string,
                           hash: string -> string, verify: (string, string) -> bool)
    requires Register(t, email, username, password, fullName, hash).Ok?
    requires verify(password, hash(password))
    ensures Login(Register(t, email, username, password, fullName, hash).value.0, email, password, verify)
            == Ok(Register(t, email, username, password, fullName, hash).value.1)
  {
    var t' := Register(t, email, username, password, fullName, hash).value.0;
    NewRowFoundByEmail(t, t', email);
  }

  /** After appending a row whose email nobody held, the email finds that row. */
  lemma NewRowFoundByEmail(t: Table, t': Table, email: string)
    requires |t'| == |t| + 1 && t'[..|t|] == t && t'[|t|].email == email
    requires forall u :: u in t ==> u.email != email
    ensures FindByEmail(t', email) == Some(|t|)
  {
    assert t'[|t|] in t';
    forall k | 0 <= k < |t|
      ensures t'[k].email != email
    {
      assert t'[k] == t[k] && t[k] in t;
    }
  }
}
