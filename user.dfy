/** The player profiles of backend/src/repository/user.repository.ts: the
    `users` row and the entity read from it, the defaults `createUser`
    inserts, the patch `updateUser` writes and its uid rule, the level
    formula, the experience and game counters, and the listing filters.
    The store itself is the class in `UserStore`. */
module Users {
  import opened Common
  import Uid

  /** The column default of `users.gold`; `createUser` does not insert it. */
  const DEFAULT_GOLD := 1000

  /** A row of the `users` table (timestamps other than `last_seen_at` are not kept). */
  datatype UserRow = UserRow(
    id: int,
    nameInGame: string,
    uid: string,
    status: int,
    location: Option<string>,
    avatarUrl: Option<string>,
    phone: Option<string>,
    bio: Option<string>,
    totalGamesPlayed: int,
    totalGamesWon: int,
    gold: int,
    experiencePoints: int,
    level: int,
    lastSeenAt: Option<int>,
    loginId: int)

  /** A `UserEntity` carries the row's fields. */
  type UserEntity = UserRow

  /** `mapToUserEntity`: the counters are read with `|| 0`, which changes no
      number, and the level with `|| 1`, which reads a stored 0 as 1. */
  function MapToUserEntity(row: UserRow): (e: UserEntity)
    ensures e.level != 0
    ensures row.level != 0 ==> e == row
    ensures e.(level := row.level) == row
  {
    row.(level := if row.level == 0 then 1 else row.level)
  }

  // ---------------------------------------------------------------------
  // Creation

  /** The `User` record `createUser` receives: the two required fields and the optional rest. */
  datatype User = User(
    nameInGame: string,
    loginId: int,
    uid: Option<string>,
    status: Option<int>,
    location: Option<string>,
    avatarUrl: Option<string>,
    phone: Option<string>,
    bio: Option<string>,
    totalGamesPlayed: Option<int>,
    totalGamesWon: Option<int>,
    experiencePoints: Option<int>,
    level: Option<int>,
    lastSeenAt: Option<int>)

  const UidChars: string := "ABCDEFGHIJKLMNOPQRSTUVWXYZ0123456789"

  /** The private `generateUID` of the repository: "USER-" and eight characters of `UidChars`. */
  method GenerateUID(rs: seq<real>) returns (uid: string)
    requires |rs| == 8 && AllDraws(rs)
    ensures uid == "USER-" + Uid.CharsFrom(UidChars, rs)
    ensures |uid| == 13 && uid[..5] == "USER-"
    ensures forall i :: 5 <= i < 13 ==> uid[i] in UidChars
  {
    uid := Uid.AppendRandomChars("USER-", UidChars, rs);
    Uid.CharsFromShape(UidChars, rs);
    assert uid[5..] == Uid.CharsFrom(UidChars, rs);
  }

  /** The row `createUser` inserts under the new `id`: the given uid, or the
      generated one when none is given; `|| 0` for the status and counters,
      `|| 1` for the level, `|| null` for the texts, and the column default
      for the gold. */
  function CreateRow(user: User, id: int, generatedUid: string): (r: UserRow)
    ensures r.id == id && r.nameInGame == user.nameInGame && r.loginId == user.loginId
    ensures Truthy(user.uid) ==> r.uid == user.uid.value
    ensures !Truthy(user.uid) ==> r.uid == generatedUid
    ensures r.status == OrInt(user.status, 0)
    ensures r.location == OrNull(user.location) && r.avatarUrl == OrNull(user.avatarUrl)
    ensures r.phone == OrNull(user.phone) && r.bio == OrNull(user.bio)
    ensures r.totalGamesPlayed == OrInt(user.totalGamesPlayed, 0)
    ensures r.totalGamesWon == OrInt(user.totalGamesWon, 0)
    ensures r.experiencePoints == OrInt(user.experiencePoints, 0)
    ensures r.level == OrInt(user.level, 1)
    ensures user.level.None? ==> r.level == 1
    ensures r.level != 0 && r.gold == DEFAULT_GOLD
    ensures r.lastSeenAt == user.lastSeenAt
    ensures MapToUserEntity(r) == r
  {
    UserRow(
      id,
      user.nameInGame,
      if Truthy(user.uid) then user.uid.value else generatedUid,
      OrInt(user.status, 0),
      OrNull(user.location),
      OrNull(user.avatarUrl),
      OrNull(user.phone),
      OrNull(user.bio),
      OrInt(user.totalGamesPlayed, 0),
      OrInt(user.totalGamesWon, 0),
      DEFAULT_GOLD,
      OrInt(user.experiencePoints, 0),
      OrInt(user.level, 1),
      user.lastSeenAt,
      user.loginId)
  }

  // ---------------------------------------------------------------------
  // Updates

  /** The `Partial<User>` `updateUser` receives: `Some` for each field given. */
  datatype UserPatch = UserPatch(
    nameInGame: Option<string>,
    uid: Option<string>,
    status: Option<int>,
    location: Option<string>,
    avatarUrl: Option<string>,
    phone: Option<string>,
    bio: Option<string>,
    totalGamesPlayed: Option<int>,
    totalGamesWon: Option<int>,
    experiencePoints: Option<int>,
    level: Option<int>,
    lastSeenAt: Option<int>,
    loginId: Option<int>)

  const NoUserChange: UserPatch :=
    UserPatch(None, None, None, None, None, None, None, None, None, None, None, None, None)

  /** The row after the `UPDATE` `updateUser` issues: each given field is
      written, every other column keeps its value. */
  function ApplyUserPatch(row: UserRow, p: UserPatch): (r: UserRow)
    ensures r.id == row.id && r.gold == row.gold
    ensures r.nameInGame == GetOr(p.nameInGame, row.nameInGame)
    ensures r.uid == GetOr(p.uid, row.uid)
    ensures r.status == GetOr(p.status, row.status)
    ensures r.location == (if p.location.Some? then p.location else row.location)
    ensures r.avatarUrl == (if p.avatarUrl.Some? then p.avatarUrl else row.avatarUrl)
    ensures r.phone == (if p.phone.Some? then p.phone else row.phone)
    ensures r.bio == (if p.bio.Some? then p.bio else row.bio)
    ensures r.totalGamesPlayed == GetOr(p.totalGamesPlayed, row.totalGamesPlayed)
    ensures r.totalGamesWon == GetOr(p.totalGamesWon, row.totalGamesWon)
    ensures r.experiencePoints == GetOr(p.experiencePoints, row.experiencePoints)
    ensures r.level == GetOr(p.level, row.level)
    ensures r.lastSeenAt == (if p.lastSeenAt.Some? then p.lastSeenAt else row.lastSeenAt)
    ensures r.loginId == GetOr(p.loginId, row.loginId)
  {
    UserRow(
      row.id,
      GetOr(p.nameInGame, row.nameInGame),
      GetOr(p.uid, row.uid),
      GetOr(p.status, row.status),
      if p.location.Some? then p.location else row.location,
      if p.avatarUrl.Some? then p.avatarUrl else row.avatarUrl,
      if p.phone.Some? then p.phone else row.phone,
      if p.bio.Some? then p.bio else row.bio,
      GetOr(p.totalGamesPlayed, row.totalGamesPlayed),
      GetOr(p.totalGamesWon, row.totalGamesWon),
      row.gold,
      GetOr(p.experiencePoints, row.experiencePoints),
      GetOr(p.level, row.level),
      if p.lastSeenAt.Some? then p.lastSeenAt else row.lastSeenAt,
      GetOr(p.loginId, row.loginId))
  }

  /** The columns of `users` an update can name. */
  datatype Column =
    | NameInGameCol | UidCol | StatusCol | LocationCol | AvatarUrlCol | PhoneCol | BioCol
    | GamesPlayedCol | GamesWonCol | ExperienceCol | LevelCol | LastSeenCol | LoginIdCol

  /** One column named when its field is given. */
  function Named(given: bool, c: Column): seq<Column> {
    if given then [c] else []
  }

  /** The `SET` list `updateUser` builds for `p` against `row`: the given
      fields in declaration order, the uid only when it differs. */
  function PatchColumns(row: UserRow, p: UserPatch): seq<Column> {
    Named(p.nameInGame.Some?, NameInGameCol)
      + Named(p.uid.Some? && p.uid.value != row.uid, UidCol)
      + Named(p.status.Some?, StatusCol)
      + Named(p.location.Some?, LocationCol)
      + Named(p.avatarUrl.Some?, AvatarUrlCol)
      + Named(p.phone.Some?, PhoneCol)
      + Named(p.bio.Some?, BioCol)
      + Named(p.totalGamesPlayed.Some?, GamesPlayedCol)
      + Named(p.totalGamesWon.Some?, GamesWonCol)
      + Named(p.experiencePoints.Some?, ExperienceCol)
      + Named(p.level.Some?, LevelCol)
      + Named(p.lastSeenAt.Some?, LastSeenCol)
      + Named(p.loginId.Some?, LoginIdCol)
  }

  /** When no column is named the row is unchanged, so returning the stored
      user, as `updateUser` does then, is the same as writing the patch. */
  lemma EmptySetListChangesNothing(row: UserRow, p: UserPatch)
    requires PatchColumns(row, p) == []
    ensures ApplyUserPatch(row, p) == row
  {
    assert p.nameInGame.None? by { assert NameInGameCol in PatchColumns(row, p) <== p.nameInGame.Some?; }
    assert p.status.None? by { assert StatusCol in PatchColumns(row, p) <== p.status.Some?; }
    assert p.uid.Some? ==> p.uid.value == row.uid by {
      assert UidCol in PatchColumns(row, p) <== p.uid.Some? && p.uid.value != row.uid;
    }
    assert p.location.None? by { assert LocationCol in PatchColumns(row, p) <== p.location.Some?; }
    assert p.avatarUrl.None? by { assert AvatarUrlCol in PatchColumns(row, p) <== p.avatarUrl.Some?; }
    assert p.phone.None? by { assert PhoneCol in PatchColumns(row, p) <== p.phone.Some?; }
    assert p.bio.None? by { assert BioCol in PatchColumns(row, p) <== p.bio.Some?; }
    assert p.totalGamesPlayed.None? by { assert GamesPlayedCol in PatchColumns(row, p) <== p.totalGamesPlayed.Some?; }
    assert p.totalGamesWon.None? by { assert GamesWonCol in PatchColumns(row, p) <== p.totalGamesWon.Some?; }
    assert p.experiencePoints.None? by { assert ExperienceCol in PatchColumns(row, p) <== p.experiencePoints.Some?; }
    assert p.level.None? by { assert LevelCol in PatchColumns(row, p) <== p.level.Some?; }
    assert p.lastSeenAt.None? by { assert LastSeenCol in PatchColumns(row, p) <== p.lastSeenAt.Some?; }
    assert p.loginId.None? by { assert LoginIdCol in PatchColumns(row, p) <== p.loginId.Some?; }
  }

  /** Writing a patch twice is writing it once. */
  lemma UserPatchIdempotent(row: UserRow, p: UserPatch)
    ensures ApplyUserPatch(ApplyUserPatch(row, p), p) == ApplyUserPatch(row, p)
  {
  }

  /** Whether a user other than `id` holds `uid`. */
  predicate UidTaken(users: map<int, UserRow>, id: int, uid: string) {
    exists other :: other in users && other != id && users[other].uid == uid
  }

  /** The `UNIQUE` key on `users.uid`. */
  ghost predicate UniqueUids(users: map<int, UserRow>) {
    forall a, b :: a in users && b in users && a != b ==> users[a].uid != users[b].uid
  }

  datatype UserError = UidExists | NotFound | LevelNotANumber

  /** `updateUser(id, p)`: `None` for a missing user; an error when the uid
      is changed to one another user holds; otherwise the user read back
      after the patch is written. */
  function UpdateUser(users: map<int, UserRow>, id: int, p: UserPatch): (r: Result<Option<UserEntity>, UserError>)
    ensures id !in users ==> r == Ok(None)
    ensures id in users ==>
              (r.Err? <==> p.uid.Some? && p.uid.value != users[id].uid && UidTaken(users, id, p.uid.value))
    ensures r.Err? ==> r.error == UidExists
    ensures id in users && r.Ok? ==> r.value == Some(MapToUserEntity(ApplyUserPatch(users[id], p)))
  {
    if id !in users then Ok(None)
    else if p.uid.Some? && p.uid.value != users[id].uid && UidTaken(users, id, p.uid.value) then Err(UidExists)
    else Ok(Some(MapToUserEntity(ApplyUserPatch(users[id], p))))
  }

  /** An update `updateUser` lets through keeps every uid held once. */
  lemma UpdateKeepsUidsUnique(users: map<int, UserRow>, id: int, p: UserPatch)
    requires UniqueUids(users) && id in users
    requires UpdateUser(users, id, p).Ok?
    ensures UniqueUids(users[id := ApplyUserPatch(users[id], p)])
  {
    var after := users[id := ApplyUserPatch(users[id], p)];
    forall a, b | a in after && b in after && a != b ensures after[a].uid != after[b].uid {
      if a != id && b != id {
        assert after[a] == users[a] && after[b] == users[b];
      }
    }
  }

  /** Rewriting a row without touching its uid keeps every uid held once. */
  lemma RewriteKeepsUidsUnique(users: map<int, UserRow>, id: int, row: UserRow)
    requires UniqueUids(users) && id in users && row.uid == users[id].uid
    ensures UniqueUids(users[id := row])
  {
    var after := users[id := row];
    forall a, b | a in after && b in after && a != b ensures after[a].uid != after[b].uid {
      assert after[a].uid == users[a].uid && after[b].uid == users[b].uid;
    }
  }

  // ---------------------------------------------------------------------
  // Levels and experience

  /** The integer square root. */
  function ISqrt(n: nat): (r: nat)
    ensures r * r <= n < (r + 1) * (r + 1)
  {
    if n == 0 then 0
    else
      var s := ISqrt(n - 1);
      assert (s + 2) * (s + 2) == (s + 1) * (s + 1) + 2 * s + 3;
      if (s + 1) * (s + 1) <= n then s + 1 else s
  }

  lemma SquareMonotone(a: nat, b: nat)
    requires a <= b
    ensures a * a <= b * b
  {
    assert b * b - a * a == (b - a) * (b + a);
  }

  /** The integer square root never decreases. */
  lemma ISqrtMonotone(m: nat, n: nat)
    requires m <= n
    ensures ISqrt(m) <= ISqrt(n)
  {
    var a, b := ISqrt(m), ISqrt(n);
    if a > b {
      SquareMonotone(b + 1, a);
      assert false;
    }
  }

  /** `calculateLevel(exp)`: `Math.max(1, Math.floor(Math.sqrt(exp / 100)))`.
      For `exp >= 0` the floor of the square root of `exp / 100` is the
      integer square root of `exp div 100`; a negative total has no real
      square root, and JavaScript's `NaN` is `None`. */
  function CalculateLevel(exp: int): (level: Option<nat>)
    ensures level.None? <==> exp < 0
    ensures level.Some? ==> level.value >= 1
    ensures level.Some? ==> (level.value == 1 <==> exp < 400)
    ensures level.Some? && level.value > 1 ==>
              100 * (level.value * level.value) <= exp < 100 * ((level.value + 1) * (level.value + 1))
  {
    if exp < 0 then None
    else
      var q := exp / 100;
      var r := ISqrt(q);
      assert 100 * q <= exp < 100 * (q + 1);
      assert r >= 2 ==> q >= 4 by {
        if r >= 2 {
          SquareMonotone(2, r);
        }
      }
      assert q >= 4 ==> r >= 2 by {
        if q >= 4 && r < 2 {
          SquareMonotone(r + 1, 2);
        }
      }
      Some(if r < 1 then 1 else r)
  }

  /** More experience never means a lower level. */
  lemma LevelMonotone(a: int, b: int)
    requires 0 <= a <= b
    ensures CalculateLevel(a).value <= CalculateLevel(b).value
  {
    ISqrtMonotone(a / 100, b / 100);
  }

  /** What `addExperience` computes and writes. */
  datatype ExperienceGain = ExperienceGain(newExp: int, newLevel: nat)

  /** `addExperience`'s arithmetic: the experience grows by `exp` and the
      level is recomputed from the new total; `None` when the new total is
      negative and the level would be `NaN`. */
  function AddExperience(e: UserEntity, exp: int): (g: Option<ExperienceGain>)
    ensures g.None? <==> e.experiencePoints + exp < 0
    ensures g.Some? ==> g.value.newExp == e.experiencePoints + exp
    ensures g.Some? ==> Some(g.value.newLevel) == CalculateLevel(g.value.newExp)
  {
    var newExp := e.experiencePoints + exp;
    match CalculateLevel(newExp)
    case None => None
    case Some(level) => Some(ExperienceGain(newExp, level))
  }

  /** A positive award to a user with a non-negative total never lowers the level. */
  lemma AwardNeverLowersLevel(e: UserEntity, exp: int)
    requires e.experiencePoints >= 0 && exp > 0
    ensures AddExperience(e, exp).Some?
    ensures AddExperience(e, exp).value.newLevel >= CalculateLevel(e.experiencePoints).value
  {
    LevelMonotone(e.experiencePoints, e.experiencePoints + exp);
  }

  /** `incrementGamesPlayed(won)`: one more game played, and one more won when `won`. */
  function RecordGame(row: UserRow, won: bool): (r: UserRow)
    ensures r.totalGamesPlayed == row.totalGamesPlayed + 1
    ensures won ==> r.totalGamesWon == row.totalGamesWon + 1
    ensures !won ==> r.totalGamesWon == row.totalGamesWon
    ensures r.(totalGamesPlayed := row.totalGamesPlayed, totalGamesWon := row.totalGamesWon) == row
  {
    row.(totalGamesPlayed := row.totalGamesPlayed + 1,
         totalGamesWon := if won then row.totalGamesWon + 1 else row.totalGamesWon)
  }

  /** Recording games keeps the wins within the games played. */
  lemma RecordGameKeepsWinsWithinPlayed(row: UserRow, won: bool)
    requires 0 <= row.totalGamesWon <= row.totalGamesPlayed
    ensures var r := RecordGame(row, won);
            0 <= r.totalGamesWon <= r.totalGamesPlayed
  {
  }

  // ---------------------------------------------------------------------
  // Listing

  /** The filters of `getAllUsers` that the model keeps (the text search and
      the sort order are not modelled); 0 stands for an unset limit or page. */
  datatype UserFilters = UserFilters(
    status: Option<int>,
    minLevel: Option<int>,
    maxLevel: Option<int>,
    limit: int,
    page: int)

  /** The `WHERE` clause `getAllUsers` builds for `f`. */
  predicate MatchesUserFilters(row: UserRow, f: UserFilters) {
    && (f.status.Some? ==> row.status == f.status.value)
    && (f.minLevel.Some? ==> row.level >= f.minLevel.value)
    && (f.maxLevel.Some? ==> row.level <= f.maxLevel.value)
  }

  /** What `getAllUsers` reports: the ids of the matching rows and the paging numbers. */
  datatype UserListing = UserListing(matching: set<int>, paging: Paging)

  /** `getAllUsers`: the rows matching the filters, counted, and the paging numbers. */
  function GetAllUsers(users: map<int, UserRow>, f: UserFilters): (r: UserListing)
    ensures r.matching <= users.Keys
    ensures forall id :: id in users && MatchesUserFilters(users[id], f) ==> id in r.matching
    ensures forall id :: id in r.matching ==> MatchesUserFilters(users[id], f)
    ensures r.paging == Paginate(f.limit, f.page, |r.matching|)
  {
    var ids := set id | id in users && MatchesUserFilters(users[id], f);
    UserListing(ids, Paginate(f.limit, f.page, |ids|))
  }

  // ---------------------------------------------------------------------
  // Lookups

  /** `findById`. */
  function FindById(users: map<int, UserRow>, id: int): (r: Option<UserEntity>)
    ensures r.Some? <==> id in users
    ensures r.Some? ==> r.value == MapToUserEntity(users[id])
  {
    if id in users then Some(MapToUserEntity(users[id])) else None
  }

  /** The ids of the users called `name`. */
  function NameHolders(users: map<int, UserRow>, name: string): (ids: set<int>)
    ensures forall id :: id in ids <==> id in users && users[id].nameInGame == name
  {
    set id | id in users && users[id].nameInGame == name
  }

  /** `getUserByNameInGame` as written: it maps the first row without looking
      whether there is one, so a name nobody has makes it throw (reading `id`
      of `undefined`) instead of returning `null`. */
  function GetUserByNameInGameAsWritten(users: map<int, UserRow>, name: string): (r: Result<set<int>, string>)
    ensures r.Err? <==> NameHolders(users, name) == {}
    ensures r.Ok? ==> r.value == NameHolders(users, name)
  {
    var ids := NameHolders(users, name);
    if ids == {} then Err("Failed to find user: Cannot read properties of undefined (reading 'id')")
    else Ok(ids)
  }

  /** `getUserByNameInGame` with the empty result read as "nobody": the
      users holding the name, possibly none. */
  function GetUserByNameInGame(users: map<int, UserRow>, name: string): (ids: set<int>)
    ensures ids == NameHolders(users, name)
    ensures GetUserByNameInGameAsWritten(users, name).Ok? ==> ids == GetUserByNameInGameAsWritten(users, name).value
  {
    NameHolders(users, name)
  }
}
