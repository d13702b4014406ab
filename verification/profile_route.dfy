/** The Next.js `/api/profile` route: reading the signed-in user's profile
    and overwriting its whitelisted fields. The user table is a map from user
    id to row; the session's user id is a parameter. */
module Profile {
  import opened Outcome

  /** A user row: the profile columns, plus `userType` and `image`, which the
      route never writes. */
  datatype UserRow = UserRow(
    id: string,
    name: string,
    email: string,
    phone: Option<string>,
    website: Option<string>,
    location: Option<string>,
    bio: Option<string>,
    linkedin: Option<string>,
    twitter: Option<string>,
    github: Option<string>,
    userType: string,
    isPublic: bool,
    image: Option<string>)

  /** The `select` both handlers return: every profile column, without `image`. */
  datatype ProfileView = ProfileView(
    id: string,
    name: string,
    email: string,
    phone: Option<string>,
    website: Option<string>,
    location: Option<string>,
    bio: Option<string>,
    linkedin: Option<string>,
    twitter: Option<string>,
    github: Option<string>,
    userType: string,
    isPublic: bool)

  function View(u: UserRow): (v: ProfileView)
    ensures v.id == u.id && v.name == u.name && v.email == u.email && v.userType == u.userType && v.isPublic == u.isPublic
    ensures v.phone == u.phone && v.website == u.website && v.location == u.location && v.bio == u.bio
    ensures v.linkedin == u.linkedin && v.twitter == u.twitter && v.github == u.github
  {
    ProfileView(u.id, u.name, u.email, u.phone, u.website, u.location, u.bio, u.linkedin, u.twitter, u.github,
                u.userType, u.isPublic)
  }

  type Users = map<string, UserRow>

  /** `GET /api/profile`. */
  function GetProfile(users: Users, sessionUserId: Option<string>): (r: Outcome<ProfileView>)
    ensures r.Fail? && r.code == 401 <==> !Truthy(sessionUserId)
    ensures r.Fail? && r.code == 401 ==> r.detail == "Unauthorized"
    ensures r.Fail? && r.code == 404 <==> Truthy(sessionUserId) && sessionUserId.value !in users
    ensures r.Fail? && r.code == 404 ==> r.detail == "Profile not found"
    ensures r.Ok? <==> Truthy(sessionUserId) && sessionUserId.value in users
    ensures r.Ok? ==> r.value == View(users[sessionUserId.value])
  {
    if !Truthy(sessionUserId) then Fail(401, "Unauthorized")
    else if sessionUserId.value !in users then Fail(404, "Profile not found")
    else Ok(View(users[sessionUserId.value]))
  }

  /** The JSON body of `PUT /api/profile`; an absent member is `None`. */
  datatype ProfileBody = ProfileBody(
    name: Option<string>,
    email: Option<string>,
    phone: Option<string>,
    website: Option<string>,
    location: Option<string>,
    bio: Option<string>,
    linkedin: Option<string>,
    twitter: Option<string>,
    github: Option<string>,
    isPublic: Option<bool>)

  /** `value || null` on an optional contact field: empty and absent are both stored as null. */
  function OrNull(value: Option<string>): (r: Option<string>)
    ensures r.None? <==> !Truthy(value)
    ensures r.Some? ==> r == value
  {
    if Truthy(value) then value else None
  }

  /** The row after the update: the whitelisted columns overwritten from the
      body, every other column kept. */
  function Overwrite(u: UserRow, body: ProfileBody): (r: UserRow)
    requires body.name.Some? && body.email.Some?
    ensures r.name == body.name.value && r.email == body.email.value
    ensures r.phone == OrNull(body.phone) && r.website == OrNull(body.website) && r.location == OrNull(body.location)
    ensures r.bio == OrNull(body.bio) && r.linkedin == OrNull(body.linkedin)
    ensures r.twitter == OrNull(body.twitter) && r.github == OrNull(body.github)
    ensures r.isPublic == body.isPublic.GetOr(true)
    ensures r.id == u.id && r.userType == u.userType && r.image == u.image
  {
    u.(name := body.name.value, email := body.email.value,
       phone := OrNull(body.phone), website := OrNull(body.website), location := OrNull(body.location),
       bio := OrNull(body.bio), linkedin := OrNull(body.linkedin), twitter := OrNull(body.twitter),
       github := OrNull(body.github), isPublic := body.isPublic.GetOr(true))
  }

  /** `PUT /api/profile`: with a name and an email, the caller's row is
      overwritten and returned. Updating a row that does not exist throws in
      the database client and the catch-all answers 500. */
  function PutProfile(users: Users, sessionUserId: Option<string>, body: ProfileBody): (r: Outcome<(Users, ProfileView)>)
    ensures r.Fail? && r.code == 401 <==> !Truthy(sessionUserId)
    ensures r.Fail? && r.code == 401 ==> r.detail == "Unauthorized"
    ensures r.Fail? && r.code == 400 <==> Truthy(sessionUserId) && (!Truthy(body.name) || !Truthy(body.email))
    ensures r.Fail? && r.code == 400 ==> r.detail == "Name and email are required"
    ensures r.Fail? && r.code == 500 <==>
              Truthy(sessionUserId) && Truthy(body.name) && Truthy(body.email) && sessionUserId.value !in users
    ensures r.Fail? && r.code == 500 ==> r.detail == "Internal server error"
    ensures r.Ok? <==> Truthy(sessionUserId) && Truthy(body.name) && Truthy(body.email) && sessionUserId.value in users
    ensures r.Ok? ==> var id := sessionUserId.value;
              && id in users
              && r.value.0 == users[id := Overwrite(users[id], body)]
              && r.value.1 == View(r.value.0[id])
    ensures r.Ok? ==> r.value.0.Keys == users.Keys
    ensures r.Ok? ==> forall other :: other in users && other != sessionUserId.value ==> r.value.0[other] == users[other]
  {
    if !Truthy(sessionUserId) then Fail(401, "Unauthorized")
    else if !Truthy(body.name) || !Truthy(body.email) then Fail(400, "Name and email are required")
    else if sessionUserId.value !in users then Fail(500, "Internal server error")
    else
      var id := sessionUserId.value;
      var users' := users[id := Overwrite(users[id], body)];
      Ok((users', View(users'[id])))
  }

  /** The update is a full overwrite: applying it to its own result changes nothing more. */
  lemma {:induction false} OverwriteIdempotent(u: UserRow, body: ProfileBody)
    requires body.name.Some? && body.email.Some?
    ensures Overwrite(Overwrite(u, body), body) == Overwrite(u, body)
  {
  }

  /** Sending the same body twice stores the same profile as sending it once. */
  lemma PutTwiceIsPutOnce(users: Users, sessionUserId: Option<string>, body: ProfileBody)
    requires PutProfile(users, sessionUserId, body).Ok?
    ensures PutProfile(PutProfile(users, sessionUserId, body).value.0, sessionUserId, body)
            == PutProfile(users, sessionUserId, body)
  {
    var id := sessionUserId.value;
    OverwriteIdempotent(users[id], body);
    assert users[id := Overwrite(users[id], body)][id := Overwrite(Overwrite(users[id], body), body)]
           == users[id := Overwrite(users[id], body)];
  }

  /** What `GET` shows after a successful `PUT` is what the `PUT` returned. */
  lemma GetAfterPut(users: Users, sessionUserId: Option<string>, body: ProfileBody)
    requires PutProfile(users, sessionUserId, body).Ok?
    ensures GetProfile(PutProfile(users, sessionUserId, body).value.0, sessionUserId)
            == Ok(PutProfile(users, sessionUserId, body).value.1)
  {
  }
}
