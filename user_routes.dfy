/** The user endpoints of backend/src/route/user.routes.ts: the listing with
    its paging flags, creation with its required fields and defaults, the
    self-service updates (profile, status, experience, games played) and the
    admin-or-self routes on `/:id`.  Each handler is a method on the user
    store; it answers with what it produced or with the failure (HTTP status
    and message) its first failing guard sends. */
module UserRoutes {
  import opened Common
  import Uid
  import opened Users
  import opened UserStore

  /** A refused request: the HTTP status and the `error` message sent. */
  datatype Failure = Failure(status: int, error: string)

  /** `req.user`, the authenticated caller: its `id` and `role` claims. */
  datatype Caller = Caller(id: Option<int>, role: Option<string>)

  /** What reading `req.user.id` throws when no caller is attached. */
  const NoCallerMessage: string := "Cannot read properties of undefined (reading 'id')"

  /** The first guard of every self-service route: reading `req.user.id`
      (which throws, answered with 500, when there is no caller) and
      refusing a falsy id; on success, the caller's id. */
  function CallerGuard(user: Option<Caller>): (r: Result<int, Failure>)
    ensures user.None? ==> r == Err(Failure(STATUS_INTERNAL_ERROR, NoCallerMessage))
    ensures user.Some? && !TruthyInt(user.value.id) ==> r == Err(Failure(STATUS_BAD_REQUEST, "User ID is required"))
    ensures r.Ok? <==> user.Some? && TruthyInt(user.value.id)
    ensures r.Ok? ==> r.value == user.value.id.value && r.value != 0
  {
    if user.None? then Err(Failure(STATUS_INTERNAL_ERROR, NoCallerMessage))
    else if !TruthyInt(user.value.id) then Err(Failure(STATUS_BAD_REQUEST, "User ID is required"))
    else Ok(user.value.id.value)
  }

  // ---------------------------------------------------------------------
  // Listing

  /** The query of `GET /api/users`, each parameter parsed as a number when present. */
  datatype UserQuery = UserQuery(
    page: Option<int>,
    limit: Option<int>,
    status: Option<int>,
    minLevel: Option<int>,
    maxLevel: Option<int>)

  /** The filters the route hands to `getAllUsers`: an absent page or limit
      becomes 1 or 50 (a given 0 is defaulted again by the repository). */
  function QueryFilters(q: UserQuery): (f: UserFilters)
    ensures f.status == q.status && f.minLevel == q.minLevel && f.maxLevel == q.maxLevel
    ensures Paginate(f.limit, f.page, 0).limit == OrInt(q.limit, 50)
    ensures Paginate(f.limit, f.page, 0).page == OrInt(q.page, 1)
  {
    UserFilters(q.status, q.minLevel, q.maxLevel, GetOr(q.limit, 50), GetOr(q.page, 1))
  }

  datatype PageFlags = PageFlags(hasNext: bool, hasPrev: bool)

  /** The `pagination` flags of the listing response. A plain record
      definition: the body is its specification. */
  function PaginationFlags(p: Paging): PageFlags {
    PageFlags(p.page < p.totalPages, p.page > 1)
  }

  lemma MulMonotone(a: int, b: int, n: int)
    requires a <= b && n >= 0
    ensures a * n <= b * n
  {
    assert b * n - a * n == (b - a) * n;
  }

  /** With a positive limit, there is a next page exactly when rows remain
      after this page's window, and a previous one exactly when the window
      does not start at the first row. */
  lemma FlagsMatchRows(limit: int, page: int, total: nat)
    ensures var p := Paginate(limit, page, total);
            var f := PaginationFlags(p);
            p.limit > 0 ==>
              && (f.hasNext <==> p.offset + p.limit < total)
              && (f.hasPrev <==> p.offset > 0)
  {
    var p := Paginate(limit, page, total);
    var l, t := p.limit, p.totalPages;
    if l <= 0 {
      return;
    }
    assert p.offset + l == p.page * l;
    if p.page < t {
      MulMonotone(p.page, t - 1, l);
      assert (t - 1) * l < total;
    } else {
      MulMonotone(t, p.page, l);
      assert total <= t * l;
    }
    if p.page > 1 {
      assert (p.page - 1) * l >= l by { MulMonotone(1, p.page - 1, l); }
    } else {
      MulMonotone(p.page - 1, 0, l);
    }
  }

  /** The body of a listing response: the matching users, the paging numbers and the flags. */
  datatype UserPage = UserPage(listing: UserListing, flags: PageFlags)

  /** `GET /api/users`. */
  function ListUsers(users: map<int, UserRow>, q: UserQuery): (r: UserPage)
    ensures r.listing == GetAllUsers(users, QueryFilters(q))
    ensures var p := r.listing.paging;
            p.limit > 0 ==>
              && (r.flags.hasNext <==> p.offset + p.limit < |r.listing.matching|)
              && (r.flags.hasPrev <==> p.offset > 0)
  {
    var f := QueryFilters(q);
    var listing := GetAllUsers(users, f);
    FlagsMatchRows(f.limit, f.page, |listing.matching|);
    UserPage(listing, PaginationFlags(listing.paging))
  }

  // ---------------------------------------------------------------------
  // Creation

  /** The body of `POST /api/users`. */
  datatype CreateBody = CreateBody(
    nameInGame: Option<string>,
    loginId: Option<int>,
    uid: Option<string>,
    status: Option<int>,
    location: Option<string>,
    avatarUrl: Option<string>,
    phone: Option<string>,
    bio: Option<string>,
    totalGamesPlayed: Option<int>,
    totalGamesWon: Option<int>,
    experiencePoints: Option<int>,
    level: Option<int>)

  /** The avatar a user created without one gets. */
  const DefaultAvatar: string :=
    "https://static.vecteezy.com/system/resources/previews/036/280/651/original/default-avatar-profile-icon-social-media-user-image-gray-avatar-icon-blank-profile-silhouette-illustration-vector.jpg"

  /** Creation needs a name in game and a login id. */
  function CreateGuard(body: CreateBody): (r: Option<Failure>)
    ensures r.None? <==> Truthy(body.nameInGame) && TruthyInt(body.loginId)
    ensures r.Some? ==> r.value == Failure(STATUS_BAD_REQUEST, "Name in game and login ID are required")
  {
    if !Truthy(body.nameInGame) || !TruthyInt(body.loginId) then
      Some(Failure(STATUS_BAD_REQUEST, "Name in game and login ID are required"))
    else None
  }

  /** The uid the route puts in `userData`: the one given, else the
      `generateUserUID` code drawn from `rs`; never empty. */
  function NewUserUid(given: Option<string>, rs: seq<real>): (uid: string)
    requires |rs| >= 8 && AllDraws(rs)
    ensures Truthy(given) ==> uid == given.value
    ensures !Truthy(given) ==> uid == "USER_" + Uid.CharsFrom(Uid.Letters, rs[..3]) + Uid.DigitsFrom(rs[3..8])
    ensures uid != ""
  {
    if Truthy(given) then given.value
    else "USER_" + Uid.CharsFrom(Uid.Letters, rs[..3]) + Uid.DigitsFrom(rs[3..8])
  }

  /** The `userData` record the route builds with its own defaults. */
  function UserData(body: CreateBody, uid: string, now: int): (u: User)
    requires Truthy(body.nameInGame) && TruthyInt(body.loginId)
    ensures u.nameInGame == body.nameInGame.value && u.loginId == body.loginId.value
    ensures u.uid == Some(uid) && u.lastSeenAt == Some(now)
    ensures u.status == Some(OrInt(body.status, 0)) && u.level == Some(OrInt(body.level, 1))
    ensures u.avatarUrl == Some(if Truthy(body.avatarUrl) then body.avatarUrl.value else DefaultAvatar)
    ensures u.location == OrNull(body.location) && u.phone == OrNull(body.phone) && u.bio == OrNull(body.bio)
  {
    User(
      body.nameInGame.value,
      body.loginId.value,
      Some(uid),
      Some(OrInt(body.status, 0)),
      OrNull(body.location),
      Some(if Truthy(body.avatarUrl) then body.avatarUrl.value else DefaultAvatar),
      OrNull(body.phone),
      OrNull(body.bio),
      Some(OrInt(body.totalGamesPlayed, 0)),
      Some(OrInt(body.totalGamesWon, 0)),
      Some(OrInt(body.experiencePoints, 0)),
      Some(OrInt(body.level, 1)),
      Some(now))
  }

  /** The row a created user gets: the route's defaults survive the
      repository's, so a missing status or counter is 0, a missing level 1,
      a missing avatar the default one, and the uid is the route's (the
      repository never generates one for this route). */
  lemma CreatedUserDefaults(body: CreateBody, uid: string, id: int, generated: string, now: int)
    requires Truthy(body.nameInGame) && TruthyInt(body.loginId) && uid != ""
    ensures var row := CreateRow(UserData(body, uid, now), id, generated);
            && row.uid == uid
            && row.nameInGame == body.nameInGame.value && row.loginId == body.loginId.value
            && row.status == OrInt(body.status, 0)
            && row.totalGamesPlayed == OrInt(body.totalGamesPlayed, 0)
            && row.totalGamesWon == OrInt(body.totalGamesWon, 0)
            && row.experiencePoints == OrInt(body.experiencePoints, 0)
            && row.level == OrInt(body.level, 1)
            && row.avatarUrl == Some(if Truthy(body.avatarUrl) then body.avatarUrl.value else DefaultAvatar)
            && row.lastSeenAt == Some(now)
  {
    var u := UserData(body, uid, now);
    assert Truthy(u.uid);
    assert TruthyInt(u.level) ==> u.level.value == OrInt(body.level, 1);
    assert !TruthyInt(u.level) ==> OrInt(body.level, 1) == 1;
    assert Truthy(u.avatarUrl) by {
      assert DefaultAvatar != "";
    }
  }

  /** `POST /api/users`. */
  method CreateUserRoute(repo: UserRepository, body: CreateBody, rs: seq<real>, now: int)
    returns (r: Result<UserEntity, Failure>)
    requires repo.Valid() && |rs| == 8 && AllDraws(rs)
    modifies repo
    ensures repo.Valid()
    ensures CreateGuard(body).Some? ==>
              r == Err(CreateGuard(body).value) && repo.users == old(repo.users) && repo.nextId == old(repo.nextId)
    ensures CreateGuard(body).None? ==>
              var uid := NewUserUid(body.uid, rs);
              var row := CreateRow(UserData(body, uid, now), old(repo.nextId), uid);
              && (UidTaken(old(repo.users), old(repo.nextId), uid) ==>
                    && r == Err(Failure(STATUS_BAD_REQUEST, "User UID already exists"))
                    && repo.users == old(repo.users) && repo.nextId == old(repo.nextId))
              && (!UidTaken(old(repo.users), old(repo.nextId), uid) ==>
                    && r == Ok(row)
                    && repo.users == old(repo.users)[old(repo.nextId) := row]
                    && repo.nextId == old(repo.nextId) + 1)
  {
    var guard := CreateGuard(body);
    if guard.Some? {
      return Err(guard.value);
    }
    var uid;
    if Truthy(body.uid) {
      uid := body.uid.value;
    } else {
      uid := Uid.GenerateUserUID(rs);
    }
    var userData := UserData(body, uid, now);
    var created := repo.CreateUser(userData, rs);
    if created.Err? {
      return Err(Failure(STATUS_BAD_REQUEST, "User UID already exists"));
    }
    r := Ok(created.value);
  }

  // ---------------------------------------------------------------------
  // PATCH /update

  /** The fields `PATCH /api/users/update` takes from the body. */
  datatype UpdateBody = UpdateBody(
    nameInGame: Option<string>,
    avatarUrl: Option<string>,
    phone: Option<string>,
    bio: Option<string>,
    location: Option<string>,
    status: Option<int>)

  /** The patch the route writes: the given fields and the last-seen time. */
  function UpdatePatch(body: UpdateBody, now: int): (p: UserPatch)
    ensures p.uid.None?
  {
    NoUserChange.(nameInGame := body.nameInGame, avatarUrl := body.avatarUrl, phone := body.phone,
                  bio := body.bio, location := body.location, status := body.status,
                  lastSeenAt := Some(now))
  }

  const NameTaken: Failure := Failure(STATUS_BAD_REQUEST, "Name in game already exists")

  /** The name check of `PATCH /update` as written: a new name is looked up
      with `getUserByNameInGame`, which throws when nobody holds it; so every
      change of name is refused, with 500 when the name is free and 400 when
      another user holds it. */
  function NameGuardAsWritten(users: map<int, UserRow>, userId: int, name: Option<string>): (r: Option<Failure>)
    requires userId in users
    ensures r.Some? <==> Truthy(name) && name.value != users[userId].nameInGame
    ensures r.Some? && NameHolders(users, name.value) == {} ==>
              r.value == Failure(STATUS_INTERNAL_ERROR, "Failed to find user: Cannot read properties of undefined (reading 'id')")
    ensures r.Some? && NameHolders(users, name.value) != {} ==> r.value == NameTaken
  {
    if Truthy(name) && name.value != MapToUserEntity(users[userId]).nameInGame then
      match GetUserByNameInGameAsWritten(users, name.value)
      case Err(message) => Some(Failure(STATUS_INTERNAL_ERROR, message))
      // every holder differs from `userId`, whose name is not the new one
      case Ok(holders) => Some(NameTaken)
    else None
  }

  /** A user renaming to a name nobody has is refused with 500. */
  lemma RenameToFreeNameFailsAsWritten()
    ensures var users := map[1 := UserRow(1, "ann", "USER_AAA00000", 0, None, None, None, None, 0, 0, 1000, 0, 1, None, 1)];
            NameGuardAsWritten(users, 1, Some("bob")) ==
              Some(Failure(STATUS_INTERNAL_ERROR, "Failed to find user: Cannot read properties of undefined (reading 'id')"))
  {
  }

  /** Whether another user than `userId` is called `name`. */
  predicate NameHeldByOther(users: map<int, UserRow>, userId: int, name: string) {
    exists other :: other in users && other != userId && users[other].nameInGame == name
  }

  /** The name check of `PATCH /update` with an empty lookup read as
      "nobody": a new name is refused exactly when another user holds it. */
  function NameGuard(users: map<int, UserRow>, userId: int, name: Option<string>): (r: Option<Failure>)
    requires userId in users
    ensures r.Some? <==> Truthy(name) && name.value != users[userId].nameInGame && NameHeldByOther(users, userId, name.value)
    ensures r.Some? ==> r.value == NameTaken
  {
    if Truthy(name) && name.value != MapToUserEntity(users[userId]).nameInGame then
      var holders := GetUserByNameInGame(users, name.value);
      if exists other :: other in holders && other != userId then Some(NameTaken) else None
    else None
  }

  /** After a rename the guard lets through, the user is the only one with the new name. */
  lemma RenameKeepsNameUnique(users: map<int, UserRow>, userId: int, name: Option<string>, now: int)
    requires userId in users && Truthy(name) && name.value != users[userId].nameInGame
    requires NameGuard(users, userId, name).None?
    ensures var body := UpdateBody(name, None, None, None, None, None);
            var after := users[userId := ApplyUserPatch(users[userId], UpdatePatch(body, now))];
            NameHolders(after, name.value) == {userId}
  {
    var after := users[userId := ApplyUserPatch(users[userId], UpdatePatch(UpdateBody(name, None, None, None, None, None), now))];
    forall id | id in after && id != userId ensures after[id].nameInGame != name.value {
      assert after[id] == users[id];
      assert !NameHeldByOther(users, userId, name.value);
      assert users[id].nameInGame != name.value;
    }
  }

  /** The failures of `PATCH /update` before the write. */
  function UpdateGuard(users: map<int, UserRow>, userId: int, body: UpdateBody): (r: Option<Failure>)
    ensures userId !in users ==> r == Some(Failure(STATUS_NOT_FOUND, "User not found"))
    ensures userId in users ==> r == NameGuard(users, userId, body.nameInGame)
  {
    if userId !in users then Some(Failure(STATUS_NOT_FOUND, "User not found"))
    else NameGuard(users, userId, body.nameInGame)
  }

  /** `PATCH /api/users/update` (the user to change is the body's `id`). */
  method UpdateRoute(repo: UserRepository, userId: int, body: UpdateBody, now: int) returns (r: Result<UserEntity, Failure>)
    requires repo.Valid()
    modifies repo
    ensures repo.Valid() && repo.nextId == old(repo.nextId)
    ensures UpdateGuard(old(repo.users), userId, body).Some? ==>
              r == Err(UpdateGuard(old(repo.users), userId, body).value) && repo.users == old(repo.users)
    ensures UpdateGuard(old(repo.users), userId, body).None? ==>
              && repo.users == old(repo.users)[userId := ApplyUserPatch(old(repo.users)[userId], UpdatePatch(body, now))]
              && r == Ok(MapToUserEntity(repo.users[userId]))
  {
    var existing := FindById(repo.users, userId);
    if existing.None? {
      return Err(Failure(STATUS_NOT_FOUND, "User not found"));
    }
    var nameCheck := NameGuard(repo.users, userId, body.nameInGame);
    if nameCheck.Some? {
      return Err(nameCheck.value);
    }
    var updated := repo.UpdateUser(userId, UpdatePatch(body, now));
    if updated.Err? {
      return Err(Failure(STATUS_BAD_REQUEST, "Failed to update user: UID already exists"));
    }
    r := Ok(updated.value.value);
  }

  // ---------------------------------------------------------------------
  // PUT /profile

  /** The fields `PUT /api/users/profile` takes from the body. */
  datatype ProfileBody = ProfileBody(
    nameInGame: Option<string>,
    uid: Option<string>,
    location: Option<string>,
    avatarUrl: Option<string>,
    phone: Option<string>,
    bio: Option<string>)

  /** The fields `PUT /profile` takes from the body: name, uid, location,
      avatar, phone and bio. A plain record definition: the body is its
      specification. */
  function ProfilePatch(body: ProfileBody): (p: UserPatch)
  {
    NoUserChange.(nameInGame := body.nameInGame, uid := body.uid, location := body.location,
                  avatarUrl := body.avatarUrl, phone := body.phone, bio := body.bio)
  }

  /** The answer to an `updateUser` call made by a route: a uid conflict is
      400, a missing user 404. */
  function UpdateAnswer(r: Result<Option<UserEntity>, UserError>): (a: Result<UserEntity, Failure>)
    ensures r.Err? ==> a == Err(Failure(STATUS_BAD_REQUEST, "Failed to update user: UID already exists"))
    ensures r.Ok? && r.value.None? ==> a == Err(Failure(STATUS_NOT_FOUND, "User not found"))
    ensures r.Ok? && r.value.Some? ==> a == Ok(r.value.value)
  {
    match r
    case Err(_) => Err(Failure(STATUS_BAD_REQUEST, "Failed to update user: UID already exists"))
    case Ok(None) => Err(Failure(STATUS_NOT_FOUND, "User not found"))
    case Ok(Some(u)) => Ok(u)
  }

  /** `PUT /api/users/profile`: the caller's own row, with no name check. */
  method ProfileRoute(repo: UserRepository, user: Option<Caller>, body: ProfileBody) returns (r: Result<UserEntity, Failure>)
    requires repo.Valid()
    modifies repo
    ensures repo.Valid() && repo.nextId == old(repo.nextId)
    ensures CallerGuard(user).Err? ==> r == Err(CallerGuard(user).error) && repo.users == old(repo.users)
    ensures CallerGuard(user).Ok? ==>
              var id := CallerGuard(user).value;
              var outcome := Users.UpdateUser(old(repo.users), id, ProfilePatch(body));
              && r == UpdateAnswer(outcome)
              && repo.users == (if outcome.Ok? && outcome.value.Some?
                                then old(repo.users)[id := ApplyUserPatch(old(repo.users)[id], ProfilePatch(body))]
                                else old(repo.users))
  {
    var caller := CallerGuard(user);
    if caller.Err? {
      return Err(caller.error);
    }
    var updated := repo.UpdateUser(caller.value, ProfilePatch(body));
    r := UpdateAnswer(updated);
  }

  /** Unlike `PATCH /update`, the profile route lets a user take a name another user has. */
  lemma ProfileMayDuplicateName()
    ensures var users := map[1 := UserRow(1, "ann", "USER_AAA00000", 0, None, None, None, None, 0, 0, 1000, 0, 1, None, 1),
                             2 := UserRow(2, "bob", "USER_BBB00000", 0, None, None, None, None, 0, 0, 1000, 0, 1, None, 2)];
            var p := ProfilePatch(ProfileBody(Some("bob"), None, None, None, None, None));
            && NameGuard(users, 1, Some("bob")).Some?
            && UpdateAnswer(Users.UpdateUser(users, 1, p)).Ok?
            && NameHolders(users[1 := ApplyUserPatch(users[1], p)], "bob") == {1, 2}
  {
    var users := map[1 := UserRow(1, "ann", "USER_AAA00000", 0, None, None, None, None, 0, 0, 1000, 0, 1, None, 1),
                     2 := UserRow(2, "bob", "USER_BBB00000", 0, None, None, None, None, 0, 0, 1000, 0, 1, None, 2)];
    assert NameHeldByOther(users, 1, "bob") by {
      assert users[2].nameInGame == "bob";
    }
    var after := users[1 := ApplyUserPatch(users[1], ProfilePatch(ProfileBody(Some("bob"), None, None, None, None, None)))];
    assert 1 in NameHolders(after, "bob") && 2 in NameHolders(after, "bob");
  }

  // ---------------------------------------------------------------------
  // PATCH /status, /experience, /games-played

  /** The guards of `PATCH /status`: a caller id, then a status in 0..3. */
  function StatusGuard(user: Option<Caller>, status: Option<int>): (r: Result<int, Failure>)
    ensures CallerGuard(user).Err? ==> r == CallerGuard(user)
    ensures CallerGuard(user).Ok? && !(status.Some? && 0 <= status.value <= 3) ==>
              r == Err(Failure(STATUS_BAD_REQUEST, "Valid status (0-3) is required"))
    ensures r.Ok? <==> CallerGuard(user).Ok? && status.Some? && 0 <= status.value <= 3
    ensures r.Ok? ==> r == CallerGuard(user)
  {
    var caller := CallerGuard(user);
    if caller.Err? then caller
    else if status.None? || status.value < 0 || status.value > 3 then
      Err(Failure(STATUS_BAD_REQUEST, "Valid status (0-3) is required"))
    else caller
  }

  /** The table `PATCH /status` leaves: the status and last-seen time
      written, then the location when one is given. */
  function StatusWrite(users: map<int, UserRow>, id: int, status: int, location: Option<string>, now: int): (after: map<int, UserRow>)
    requires id in users
    ensures after.Keys == users.Keys
    ensures forall other :: other in users && other != id ==> after[other] == users[other]
    ensures after[id].status == status && after[id].lastSeenAt == Some(now)
    ensures after[id].location == (if location.Some? then location else users[id].location)
    ensures after[id].(status := users[id].status, lastSeenAt := users[id].lastSeenAt, location := users[id].location) == users[id]
  {
    var s := users[id := users[id].(status := status, lastSeenAt := Some(now))];
    if location.Some? then s[id := ApplyUserPatch(s[id], NoUserChange.(location := location))] else s
  }

  /** `PATCH /api/users/status`. */
  method StatusRoute(repo: UserRepository, user: Option<Caller>, status: Option<int>, location: Option<string>, now: int)
    returns (r: Result<UserEntity, Failure>)
    requires repo.Valid()
    modifies repo
    ensures repo.Valid() && repo.nextId == old(repo.nextId)
    ensures StatusGuard(user, status).Err? ==> r == Err(StatusGuard(user, status).error) && repo.users == old(repo.users)
    ensures StatusGuard(user, status).Ok? && StatusGuard(user, status).value !in old(repo.users) ==>
              r == Err(Failure(STATUS_NOT_FOUND, "User not found")) && repo.users == old(repo.users)
    ensures StatusGuard(user, status).Ok? && StatusGuard(user, status).value in old(repo.users) ==>
              var id := StatusGuard(user, status).value;
              && repo.users == StatusWrite(old(repo.users), id, status.value, location, now)
              && r == Ok(MapToUserEntity(repo.users[id]))
  {
    var guard := StatusGuard(user, status);
    if guard.Err? {
      return Err(guard.error);
    }
    var id := guard.value;
    var success := repo.UpdateUserStatus(id, status.value, now);
    if location.Some? {
      var _ := repo.UpdateUser(id, NoUserChange.(location := location));
    }
    if !success {
      return Err(Failure(STATUS_NOT_FOUND, "User not found"));
    }
    var found := FindById(repo.users, id);
    r := Ok(found.value);
  }

  /** The guards of `PATCH /experience`: a caller id, then a positive award. */
  function ExperienceGuard(user: Option<Caller>, exp: Option<int>): (r: Result<int, Failure>)
    ensures CallerGuard(user).Err? ==> r == CallerGuard(user)
    ensures CallerGuard(user).Ok? && !(exp.Some? && exp.value > 0) ==>
              r == Err(Failure(STATUS_BAD_REQUEST, "Valid experience points are required"))
    ensures r.Ok? <==> CallerGuard(user).Ok? && exp.Some? && exp.value > 0
    ensures r.Ok? ==> r == CallerGuard(user)
  {
    var caller := CallerGuard(user);
    if caller.Err? then caller
    else if !TruthyInt(exp) || exp.value <= 0 then
      Err(Failure(STATUS_BAD_REQUEST, "Valid experience points are required"))
    else caller
  }

  /** The 500 answer to a failed `addExperience`. */
  function ExperienceFailure(e: UserError): Failure {
    if e == NotFound then Failure(STATUS_INTERNAL_ERROR, "Failed to add experience: User not found")
    else Failure(STATUS_INTERNAL_ERROR, "Failed to add experience")
  }

  /** `PATCH /api/users/experience`: the new total and level. */
  method ExperienceRoute(repo: UserRepository, user: Option<Caller>, exp: Option<int>)
    returns (r: Result<ExperienceGain, Failure>)
    requires repo.Valid()
    modifies repo
    ensures repo.Valid() && repo.nextId == old(repo.nextId)
    ensures ExperienceGuard(user, exp).Err? ==> r == Err(ExperienceGuard(user, exp).error) && repo.users == old(repo.users)
    ensures ExperienceGuard(user, exp).Ok? && ExperienceGuard(user, exp).value !in old(repo.users) ==>
              r == Err(ExperienceFailure(NotFound)) && repo.users == old(repo.users)
    ensures ExperienceGuard(user, exp).Ok? && ExperienceGuard(user, exp).value in old(repo.users) ==>
              var id := ExperienceGuard(user, exp).value;
              match Users.AddExperience(MapToUserEntity(old(repo.users)[id]), exp.value)
              case None => r == Err(ExperienceFailure(LevelNotANumber)) && repo.users == old(repo.users)
              case Some(g) =>
                && r == Ok(g)
                && repo.users == old(repo.users)[id := old(repo.users)[id].(experiencePoints := g.newExp, level := g.newLevel)]
  {
    var guard := ExperienceGuard(user, exp);
    if guard.Err? {
      return Err(guard.error);
    }
    var result := repo.AddExperience(guard.value, exp.value);
    if result.Err? {
      return Err(ExperienceFailure(result.error));
    }
    r := Ok(result.value);
  }

  /** An award the route accepts, to a user whose total is not negative,
      raises the total and never lowers the level. */
  lemma AcceptedAwardRaisesExperience(e: UserEntity, user: Option<Caller>, exp: Option<int>)
    requires ExperienceGuard(user, exp).Ok? && e.experiencePoints >= 0
    ensures Users.AddExperience(e, exp.value).Some?
    ensures Users.AddExperience(e, exp.value).value.newExp > e.experiencePoints
    ensures Users.AddExperience(e, exp.value).value.newLevel >= CalculateLevel(e.experiencePoints).value
  {
    AwardNeverLowersLevel(e, exp.value);
  }

  /** The counters `PATCH /games-played` answers with. */
  datatype GameCounts = GameCounts(totalGamesPlayed: int, totalGamesWon: int)

  /** `PATCH /api/users/games-played`: `won || false`; a missing user gives
      a success with no counters. */
  method GamesPlayedRoute(repo: UserRepository, user: Option<Caller>, won: Option<bool>)
    returns (r: Result<Option<GameCounts>, Failure>)
    requires repo.Valid()
    modifies repo
    ensures repo.Valid() && repo.nextId == old(repo.nextId)
    ensures CallerGuard(user).Err? ==> r == Err(CallerGuard(user).error) && repo.users == old(repo.users)
    ensures CallerGuard(user).Ok? && CallerGuard(user).value !in old(repo.users) ==>
              r == Ok(None) && repo.users == old(repo.users)
    ensures CallerGuard(user).Ok? && CallerGuard(user).value in old(repo.users) ==>
              var id := CallerGuard(user).value;
              var row := RecordGame(old(repo.users)[id], GetOr(won, false));
              && repo.users == old(repo.users)[id := row]
              && r == Ok(Some(GameCounts(row.totalGamesPlayed, row.totalGamesWon)))
  {
    var caller := CallerGuard(user);
    if caller.Err? {
      return Err(caller.error);
    }
    repo.IncrementGamesPlayed(caller.value, GetOr(won, false));
    var found := FindById(repo.users, caller.value);
    if found.None? {
      return Ok(None);
    }
    r := Ok(Some(GameCounts(found.value.totalGamesPlayed, found.value.totalGamesWon)));
  }

  // ---------------------------------------------------------------------
  // Admin-or-self routes on /:id

  /** The guards of `GET /:id` and `PUT /:id`: a caller id and a target id
      (`parseInt` of the path, `None` when not a number), then the admin role
      or the caller being the target. */
  function AccessGuard(user: Option<Caller>, id: Option<int>, denied: string): (r: Option<Failure>)
    ensures user.None? ==> r == Some(Failure(STATUS_INTERNAL_ERROR, NoCallerMessage))
    ensures user.Some? && (!TruthyInt(user.value.id) || !TruthyInt(id)) ==>
              r == Some(Failure(STATUS_BAD_REQUEST, "User ID and target ID are required"))
    ensures user.Some? && TruthyInt(user.value.id) && TruthyInt(id) && r.Some? ==> r == Some(Failure(STATUS_FORBIDDEN, denied))
    ensures r.None? <==>
              user.Some? && TruthyInt(user.value.id) && TruthyInt(id)
              && (user.value.role == Some("admin") || user.value.id == id)
  {
    if user.None? then Some(Failure(STATUS_INTERNAL_ERROR, NoCallerMessage))
    else if !TruthyInt(user.value.id) || !TruthyInt(id) then
      Some(Failure(STATUS_BAD_REQUEST, "User ID and target ID are required"))
    else if user.value.role != Some("admin") && user.value.id.value != id.value then
      Some(Failure(STATUS_FORBIDDEN, denied))
    else None
  }

  /** `GET /api/users/:id`. */
  function GetUserRoute(users: map<int, UserRow>, user: Option<Caller>, id: Option<int>): (r: Result<UserEntity, Failure>)
    ensures AccessGuard(user, id, "You do not have permission to view this user").Some? ==>
              r == Err(AccessGuard(user, id, "You do not have permission to view this user").value)
    ensures r.Ok? <==>
              AccessGuard(user, id, "You do not have permission to view this user").None? && id.value in users
    ensures r.Ok? ==> r.value == MapToUserEntity(users[id.value])
  {
    var guard := AccessGuard(user, id, "You do not have permission to view this user");
    if guard.Some? then Err(guard.value)
    else match FindById(users, id.value)
      case None => Err(Failure(STATUS_NOT_FOUND, "User not found"))
      case Some(u) => Ok(u)
  }

  /** The fields `PUT /:id` takes from the body: all but the last-seen time.
      A plain record definition: the body is its specification. */
  function AdminPatch(body: UserPatch): (p: UserPatch)
  {
    body.(lastSeenAt := None)
  }

  /** `PUT /api/users/:id`. */
  method UpdateUserByIdRoute(repo: UserRepository, user: Option<Caller>, id: Option<int>, body: UserPatch)
    returns (r: Result<UserEntity, Failure>)
    requires repo.Valid()
    modifies repo
    ensures repo.Valid() && repo.nextId == old(repo.nextId)
    ensures AccessGuard(user, id, "You do not have permission to update this user").Some? ==>
              r == Err(AccessGuard(user, id, "You do not have permission to update this user").value)
              && repo.users == old(repo.users)
    ensures AccessGuard(user, id, "You do not have permission to update this user").None? ==>
              var outcome := Users.UpdateUser(old(repo.users), id.value, AdminPatch(body));
              && r == UpdateAnswer(outcome)
              && repo.users == (if outcome.Ok? && outcome.value.Some?
                                then old(repo.users)[id.value := ApplyUserPatch(old(repo.users)[id.value], AdminPatch(body))]
                                else old(repo.users))
  {
    var guard := AccessGuard(user, id, "You do not have permission to update this user");
    if guard.Some? {
      return Err(guard.value);
    }
    var updated := repo.UpdateUser(id.value, AdminPatch(body));
    r := UpdateAnswer(updated);
  }

  /** The guards of `DELETE /:id`: both ids, the admin role, and a target
      other than the caller. */
  function DeleteGuard(user: Option<Caller>, id: Option<int>): (r: Option<Failure>)
    ensures user.None? ==> r == Some(Failure(STATUS_INTERNAL_ERROR, NoCallerMessage))
    ensures user.Some? && (!TruthyInt(user.value.id) || !TruthyInt(id)) ==>
              r == Some(Failure(STATUS_BAD_REQUEST, "User ID and target ID are required"))
    ensures user.Some? && TruthyInt(user.value.id) && TruthyInt(id) && user.value.role != Some("admin") ==>
              r == Some(Failure(STATUS_FORBIDDEN, "You do not have permission to delete users"))
    ensures user.Some? && TruthyInt(user.value.id) && TruthyInt(id) && user.value.role == Some("admin")
            && user.value.id == id ==>
              r == Some(Failure(STATUS_BAD_REQUEST, "You cannot delete your own account"))
    ensures r.None? <==>
              user.Some? && TruthyInt(user.value.id) && TruthyInt(id)
              && user.value.role == Some("admin") && user.value.id != id
  {
    if user.None? then Some(Failure(STATUS_INTERNAL_ERROR, NoCallerMessage))
    else if !TruthyInt(user.value.id) || !TruthyInt(id) then
      Some(Failure(STATUS_BAD_REQUEST, "User ID and target ID are required"))
    else if user.value.role != Some("admin") then
      Some(Failure(STATUS_FORBIDDEN, "You do not have permission to delete users"))
    else if user.value.id.value == id.value then
      Some(Failure(STATUS_BAD_REQUEST, "You cannot delete your own account"))
    else None
  }

  /** `DELETE /api/users/:id`. */
  method DeleteUserRoute(repo: UserRepository, user: Option<Caller>, id: Option<int>) returns (r: Result<int, Failure>)
    requires repo.Valid()
    modifies repo
    ensures repo.Valid() && repo.nextId == old(repo.nextId)
    ensures DeleteGuard(user, id).Some? ==> r == Err(DeleteGuard(user, id).value) && repo.users == old(repo.users)
    ensures DeleteGuard(user, id).None? && id.value !in old(repo.users) ==>
              r == Err(Failure(STATUS_NOT_FOUND, "User not found")) && repo.users == old(repo.users)
    ensures DeleteGuard(user, id).None? && id.value in old(repo.users) ==>
              r == Ok(id.value) && repo.users == old(repo.users) - {id.value}
  {
    var guard := DeleteGuard(user, id);
    if guard.Some? {
      return Err(guard.value);
    }
    var deleted := repo.DeleteUser(id.value);
    if !deleted {
      return Err(Failure(STATUS_NOT_FOUND, "User not found"));
    }
    r := Ok(id.value);
  }
}
