/** The stored side of backend/src/repository/user.repository.ts: the `users`
    table as a map from the auto-increment `id` to row, with the next id the
    table hands out.  Each operation reads the row, computes its change with
    the functions of `Users` and writes it back. */
module UserStore {
  import opened Common
  import Uid
  import opened Users

  /** With nothing to set, returning the stored user is the outcome of
      writing the patch, and the table is the one the write would leave. */
  lemma NothingToSet(users: map<int, UserRow>, id: int, p: UserPatch)
    requires id in users && PatchColumns(users[id], p) == []
    ensures Users.UpdateUser(users, id, p) == Ok(FindById(users, id))
    ensures users[id := ApplyUserPatch(users[id], p)] == users
  {
    EmptySetListChangesNothing(users[id], p);
    assert users[id := users[id]] == users;
  }

  class UserRepository {
    var users: map<int, UserRow>
    var nextId: int

    /** Every row is stored under its own id, below the next id to hand out,
        and no two users share a uid. */
    ghost predicate Valid()
      reads this
    {
      && (forall id :: id in users ==> users[id].id == id && id < nextId)
      && UniqueUids(users)
    }

    constructor ()
      ensures Valid() && users == map[] && nextId == 1
    {
      users := map[];
      nextId := 1;
    }

    /** `createUser`: the uid given, or one drawn from `rs` when none is; a
        uid some user already holds violates the unique key. */
    method CreateUser(user: User, rs: seq<real>) returns (r: Result<UserEntity, UserError>)
      requires Valid() && |rs| == 8 && AllDraws(rs)
      modifies this
      ensures Valid()
      ensures var uid := if Truthy(user.uid) then user.uid.value else "USER-" + Uid.CharsFrom(UidChars, rs);
              && (UidTaken(old(users), old(nextId), uid) ==>
                    r == Err(UidExists) && users == old(users) && nextId == old(nextId))
              && (!UidTaken(old(users), old(nextId), uid) ==>
                    var row := CreateRow(user, old(nextId), uid);
                    && users == old(users)[old(nextId) := row] && nextId == old(nextId) + 1
                    && r == Ok(row))
    {
      var uid;
      if Truthy(user.uid) {
        uid := user.uid.value;
      } else {
        uid := GenerateUID(rs);
      }
      if UidTaken(users, nextId, uid) {
        return Err(UidExists);
      }
      var id := nextId;
      var row := CreateRow(user, id, uid);
      users := users[id := row];
      nextId := nextId + 1;
      var found := FindById(users, id);
      r := Ok(found.value);
    }

    /** The first part of `updateUser`: the `SET` list for `p` against the
        stored `row`, built field by field; a uid changed to one another user
        holds is refused on the way. */
    method BuildSetList(id: int, row: UserRow, p: UserPatch) returns (r: Result<seq<Column>, UserError>)
      ensures p.uid.Some? && p.uid.value != row.uid && UidTaken(users, id, p.uid.value) ==> r == Err(UidExists)
      ensures !(p.uid.Some? && p.uid.value != row.uid && UidTaken(users, id, p.uid.value)) ==>
                r == Ok(PatchColumns(row, p))
    {
      var fields: seq<Column> := [];
      fields := fields + Named(p.nameInGame.Some?, NameInGameCol);
      if p.uid.Some? && p.uid.value != row.uid {
        if UidTaken(users, id, p.uid.value) {
          return Err(UidExists);
        }
        fields := fields + [UidCol];
      }
      assert fields == Named(p.nameInGame.Some?, NameInGameCol) + Named(p.uid.Some? && p.uid.value != row.uid, UidCol);
      fields := fields + Named(p.status.Some?, StatusCol);
      fields := fields + Named(p.location.Some?, LocationCol);
      fields := fields + Named(p.avatarUrl.Some?, AvatarUrlCol);
      fields := fields + Named(p.phone.Some?, PhoneCol);
      fields := fields + Named(p.bio.Some?, BioCol);
      fields := fields + Named(p.totalGamesPlayed.Some?, GamesPlayedCol);
      fields := fields + Named(p.totalGamesWon.Some?, GamesWonCol);
      fields := fields + Named(p.experiencePoints.Some?, ExperienceCol);
      fields := fields + Named(p.level.Some?, LevelCol);
      fields := fields + Named(p.lastSeenAt.Some?, LastSeenCol);
      fields := fields + Named(p.loginId.Some?, LoginIdCol);
      r := Ok(fields);
    }

    /** `updateUser`: with nothing to set the stored user is returned as it
        is, otherwise the patch is written and the user read back. */
    method UpdateUser(id: int, p: UserPatch) returns (r: Result<Option<UserEntity>, UserError>)
      requires Valid()
      modifies this
      ensures Valid() && nextId == old(nextId)
      ensures r == Users.UpdateUser(old(users), id, p)
      ensures r.Ok? && r.value.Some? ==> users == old(users)[id := ApplyUserPatch(old(users)[id], p)]
      ensures !(r.Ok? && r.value.Some?) ==> users == old(users)
    {
      var existing := FindById(users, id);
      if existing.None? {
        return Ok(None);
      }
      var row := users[id];
      var fields := BuildSetList(id, row, p);
      if fields.Err? {
        return Err(fields.error);
      }
      if |fields.value| == 0 {
        NothingToSet(users, id, p);
        return Ok(existing);
      }
      UpdateKeepsUidsUnique(users, id, p);
      users := users[id := ApplyUserPatch(row, p)];
      r := Ok(FindById(users, id));
    }

    /** `updateUserStatus`: the status and the last-seen time; whether a row matched. */
    method UpdateUserStatus(id: int, status: int, now: int) returns (found: bool)
      requires Valid()
      modifies this
      ensures Valid() && nextId == old(nextId)
      ensures found <==> id in old(users)
      ensures users == (if found then old(users)[id := old(users)[id].(status := status, lastSeenAt := Some(now))]
                        else old(users))
    {
      found := id in users;
      if found {
        RewriteKeepsUidsUnique(users, id, users[id].(status := status, lastSeenAt := Some(now)));
        users := users[id := users[id].(status := status, lastSeenAt := Some(now))];
      }
    }

    /** `addExperience`: a missing user is an error; otherwise the new total
        and the level computed from it are written and returned. */
    method AddExperience(id: int, exp: int) returns (r: Result<ExperienceGain, UserError>)
      requires Valid()
      modifies this
      ensures Valid() && nextId == old(nextId)
      ensures id !in old(users) ==> r == Err(NotFound) && users == old(users)
      ensures id in old(users) ==>
                match Users.AddExperience(MapToUserEntity(old(users)[id]), exp)
                case None => r == Err(LevelNotANumber) && users == old(users)
                case Some(g) =>
                  && r == Ok(g)
                  && users == old(users)[id := old(users)[id].(experiencePoints := g.newExp, level := g.newLevel)]
    {
      var user := FindById(users, id);
      if user.None? {
        return Err(NotFound);
      }
      var gain := Users.AddExperience(user.value, exp);
      if gain.None? {
        return Err(LevelNotANumber);
      }
      var g := gain.value;
      RewriteKeepsUidsUnique(users, id, users[id].(experiencePoints := g.newExp, level := g.newLevel));
      users := users[id := users[id].(experiencePoints := g.newExp, level := g.newLevel)];
      r := Ok(g);
    }

    /** `incrementGamesPlayed(id, won)`: the `UPDATE` adds one game, and one
        win when `won`; it matches no row for a missing user. */
    method IncrementGamesPlayed(id: int, won: bool)
      requires Valid()
      modifies this
      ensures Valid() && nextId == old(nextId)
      ensures users == (if id in old(users) then old(users)[id := RecordGame(old(users)[id], won)] else old(users))
    {
      if id !in users {
        return;
      }
      var row := users[id].(totalGamesPlayed := users[id].totalGamesPlayed + 1);
      if won {
        row := row.(totalGamesWon := row.totalGamesWon + 1);
      }
      RewriteKeepsUidsUnique(users, id, row);
      users := users[id := row];
    }

    /** `deleteUser`: whether a row was deleted. */
    method DeleteUser(id: int) returns (deleted: bool)
      requires Valid()
      modifies this
      ensures Valid() && nextId == old(nextId)
      ensures deleted <==> id in old(users)
      ensures users == old(users) - {id}
    {
      deleted := id in users;
      users := users - {id};
    }
  }
}
