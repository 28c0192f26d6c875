/** The lobby rules of backend/src/repository/room.repository.ts: the stored
    `rooms` row, the entity the repository hands out for it, and the updates
    its operations compute (join, leave with host hand-over and
    delete-on-empty, field-wise patches, the password gate, the expiry sweep).
    The store itself lives in `RoomStore.RoomRepository`. */
module Rooms {
  import opened Common

  /** A row of the `rooms` table.  `maxPlayers` 0 and `gameMode` "" stand for
      an unset column; `expiresAt` is a time in milliseconds.  `gameSettings` is
      the JSON text of the settings object, "" for an unset column. */
  datatype RoomRow = RoomRow(
    roomId: string,
    roomName: Option<string>,
    description: Option<string>,
    playerIds: seq<string>,
    hostId: string,
    maxPlayers: int,
    isUsing: bool,
    isPrivate: bool,
    password: Option<string>,
    gameMode: string,
    expiresAt: Option<int>,
    gameSettings: string)

  /** `RoomEntity`: what every lookup returns. */
  datatype RoomEntity = RoomEntity(
    roomId: string,
    roomName: Option<string>,
    description: Option<string>,
    playerIds: seq<string>,
    hostId: string,
    maxPlayers: int,
    currentPlayers: nat,
    isUsing: bool,
    isPrivate: bool,
    password: Option<string>,
    gameMode: string,
    expiresAt: Option<int>,
    gameSettings: string)

  /** The `Room` a caller asks `createRoom` to insert. */
  datatype Room = Room(
    roomId: string,
    roomName: Option<string>,
    description: Option<string>,
    playerIds: Option<seq<string>>,
    hostId: string,
    maxPlayers: Option<int>,
    isUsing: bool,
    isPrivate: Option<bool>,
    password: Option<string>,
    gameMode: Option<string>,
    expiresAt: Option<int>,
    gameSettings: Option<string>)

  /** `Partial<Room>` as `updateRoomByRoomId` reads it: `Some` for a field present in the update. */
  datatype RoomPatch = RoomPatch(
    roomId: Option<string>,
    roomName: Option<string>,
    description: Option<string>,
    playerIds: Option<seq<string>>,
    hostId: Option<string>,
    maxPlayers: Option<int>,
    isUsing: Option<bool>,
    isPrivate: Option<bool>,
    password: Option<string>,
    gameMode: Option<string>,
    expiresAt: Option<int>,
    gameSettings: Option<string>)

  const NoRoomChange: RoomPatch :=
    RoomPatch(None, None, None, None, None, None, None, None, None, None, None, None)

  datatype RoomError = RoomNotActive | RoomFull(maxPlayers: int) | RoomIdExists(roomId: string)

  // ---------------------------------------------------------------------
  // Rows and entities

  /** `mapToRoomEntity`: an unset `max_players` reads as 4, an unset
      `game_mode` as "default", unset `game_settings` as the empty object, and `currentPlayers` is the generated column
      `JSON_LENGTH(player_ids)`, so it always counts the player list. */
  function MapToRoomEntity(row: RoomRow): (e: RoomEntity)
    ensures e.maxPlayers != 0 && e.gameMode != ""
    ensures e.currentPlayers == |e.playerIds| && e.playerIds == row.playerIds
    ensures row.maxPlayers != 0 ==> e.maxPlayers == row.maxPlayers
    ensures row.maxPlayers == 0 ==> e.maxPlayers == 4
    ensures row.gameMode != "" ==> e.gameMode == row.gameMode
    ensures row.gameMode == "" ==> e.gameMode == "default"
    ensures row.gameSettings != "" ==> e.gameSettings == row.gameSettings
    ensures row.gameSettings == "" ==> e.gameSettings == "{}"
    ensures && e.roomId == row.roomId && e.hostId == row.hostId && e.isUsing == row.isUsing
            && e.isPrivate == row.isPrivate && e.password == row.password
            && e.roomName == row.roomName && e.description == row.description
            && e.expiresAt == row.expiresAt
  {
    RoomEntity(row.roomId, row.roomName, row.description, row.playerIds, row.hostId,
               if row.maxPlayers != 0 then row.maxPlayers else 4,
               |row.playerIds|, row.isUsing, row.isPrivate, row.password,
               if row.gameMode != "" then row.gameMode else "default",
               row.expiresAt,
               if row.gameSettings != "" then row.gameSettings else "{}")
  }

  /** The row an entity's own fields describe. */
  function EntityRow(e: RoomEntity): RoomRow {
    RoomRow(e.roomId, e.roomName, e.description, e.playerIds, e.hostId, e.maxPlayers,
            e.isUsing, e.isPrivate, e.password, e.gameMode, e.expiresAt, e.gameSettings)
  }

  /** Reading a row and writing back what was read changes nothing more:
      the defaults are a fixed point of the mapping. */
  lemma MapToRoomEntityNormalises(row: RoomRow)
    ensures MapToRoomEntity(EntityRow(MapToRoomEntity(row))) == MapToRoomEntity(row)
  {
  }

  /** `createRoom`: the row inserted for `room`, with the column defaults the
      statement supplies (`|| null`, `|| []`, `|| 4`, `?? false`, `|| 'default'`, `|| {}`). */
  function CreateRow(room: Room): (row: RoomRow)
    ensures row.roomId == room.roomId && row.hostId == room.hostId && row.isUsing == room.isUsing
    ensures row.playerIds == GetOr(room.playerIds, [])
    ensures row.maxPlayers == (if room.maxPlayers.Some? && room.maxPlayers.value != 0 then room.maxPlayers.value else 4)
    ensures row.isPrivate == GetOr(room.isPrivate, false)
    ensures row.roomName == OrNull(room.roomName) && row.description == OrNull(room.description)
    ensures row.password == OrNull(room.password)
    ensures row.gameMode == (if Truthy(room.gameMode) then room.gameMode.value else "default")
    ensures row.expiresAt == room.expiresAt
    ensures row.gameSettings == (if Truthy(room.gameSettings) then room.gameSettings.value else "{}")
  {
    RoomRow(room.roomId, OrNull(room.roomName), OrNull(room.description),
            GetOr(room.playerIds, []), room.hostId,
            if room.maxPlayers.Some? && room.maxPlayers.value != 0 then room.maxPlayers.value else 4,
            room.isUsing, GetOr(room.isPrivate, false), OrNull(room.password),
            if Truthy(room.gameMode) then room.gameMode.value else "default",
            room.expiresAt,
            if Truthy(room.gameSettings) then room.gameSettings.value else "{}")
  }

  /** A freshly inserted room reads back with a positive capacity, its default
      mode, and a count equal to the players it was created with. */
  lemma CreatedRoomReadsBack(room: Room)
    requires room.maxPlayers.None? || room.maxPlayers.value >= 0
    ensures var e := MapToRoomEntity(CreateRow(room));
            && e.maxPlayers >= 1
            && e.currentPlayers == |GetOr(room.playerIds, [])|
            && (room.gameMode.None? ==> e.gameMode == "default")
            && (room.maxPlayers.None? ==> e.maxPlayers == 4)
  {
  }

  /** `updateRoomByRoomId`'s `UPDATE`: exactly the fields present in the
      patch are written; `roomId` is never one of them. */
  function ApplyRoomPatch(row: RoomRow, p: RoomPatch): (r: RoomRow)
    ensures r.roomId == row.roomId
    ensures r.roomName == (if p.roomName.Some? then p.roomName else row.roomName)
    ensures r.description == (if p.description.Some? then p.description else row.description)
    ensures r.playerIds == GetOr(p.playerIds, row.playerIds)
    ensures r.hostId == GetOr(p.hostId, row.hostId)
    ensures r.maxPlayers == GetOr(p.maxPlayers, row.maxPlayers)
    ensures r.isUsing == GetOr(p.isUsing, row.isUsing)
    ensures r.isPrivate == GetOr(p.isPrivate, row.isPrivate)
    ensures r.password == (if p.password.Some? then p.password else row.password)
    ensures r.gameMode == GetOr(p.gameMode, row.gameMode)
    ensures r.expiresAt == (if p.expiresAt.Some? then p.expiresAt else row.expiresAt)
    ensures p.gameSettings.Some? ==> r.gameSettings == (if p.gameSettings.value != "" then p.gameSettings.value else "{}")
    ensures p.gameSettings.None? ==> r.gameSettings == row.gameSettings
  {
    RoomRow(row.roomId,
            if p.roomName.Some? then p.roomName else row.roomName,
            if p.description.Some? then p.description else row.description,
            GetOr(p.playerIds, row.playerIds),
            GetOr(p.hostId, row.hostId),
            GetOr(p.maxPlayers, row.maxPlayers),
            GetOr(p.isUsing, row.isUsing),
            GetOr(p.isPrivate, row.isPrivate),
            if p.password.Some? then p.password else row.password,
            GetOr(p.gameMode, row.gameMode),
            if p.expiresAt.Some? then p.expiresAt else row.expiresAt,
            match p.gameSettings
            case Some(t) => if t != "" then t else "{}"
            case None => row.gameSettings)
  }

  /** An empty patch writes nothing, and writing a patch twice is writing it once. */
  lemma RoomPatchLaws(row: RoomRow, p: RoomPatch)
    ensures ApplyRoomPatch(row, NoRoomChange) == row
    ensures ApplyRoomPatch(ApplyRoomPatch(row, p), p) == ApplyRoomPatch(row, p)
  {
  }

  // ---------------------------------------------------------------------
  // Joining and leaving

  /** The capacity test of `addPlayerToRoom`, with JavaScript's truthiness:
      a count of 0 never makes a room full. */
  predicate IsFull(e: RoomEntity) {
    e.currentPlayers != 0 && e.maxPlayers != 0 && e.currentPlayers >= e.maxPlayers
  }

  /** `addPlayerToRoom` on the room read from the store: the new player list,
      or the error the repository throws.  Inactivity is checked first, then
      capacity, and only then whether the player is already in. */
  function AddPlayerToRoom(e: RoomEntity, playerId: string): (r: Result<seq<string>, RoomError>)
    ensures r == Err(RoomNotActive) <==> !e.isUsing
    ensures r == Err(RoomFull(e.maxPlayers)) <==> e.isUsing && IsFull(e)
    ensures r.Ok? <==> e.isUsing && !IsFull(e)
    ensures r.Ok? && playerId in e.playerIds ==> r.value == e.playerIds
    ensures r.Ok? && playerId !in e.playerIds ==> r.value == e.playerIds + [playerId]
    ensures r.Ok? ==> playerId in r.value && r.value[..|e.playerIds|] == e.playerIds
    ensures r.Ok? && NoDup(e.playerIds) ==> NoDup(r.value)
  {
    if !e.isUsing then Err(RoomNotActive)
    else if IsFull(e) then Err(RoomFull(e.maxPlayers))
    else if playerId in e.playerIds then Ok(e.playerIds)
    else
      AppendFreshNoDupIf(e.playerIds, playerId);
      Ok(e.playerIds + [playerId])
  }

  lemma AppendFreshNoDupIf(s: seq<string>, x: string)
    requires x !in s
    ensures NoDup(s) ==> NoDup(s + [x])
  {
    if NoDup(s) {
      AppendFreshNoDup(s, x);
    }
  }

  /** With a positive capacity a join never takes a room past it: a room at
      or below capacity stays at or below it. */
  lemma JoinWithinCapacity(row: RoomRow, playerId: string)
    requires MapToRoomEntity(row).maxPlayers >= 1
    requires |row.playerIds| <= MapToRoomEntity(row).maxPlayers
    requires AddPlayerToRoom(MapToRoomEntity(row), playerId).Ok?
    ensures |AddPlayerToRoom(MapToRoomEntity(row), playerId).value| <= MapToRoomEntity(row).maxPlayers
  {
  }

  /** What `removePlayerFromRoom` leaves in the store and what it returns. */
  datatype Departure = Departure(stored: Option<RoomRow>, returned: Option<RoomEntity>)

  /** `removePlayerFromRoom` on the stored row: every occurrence of the player
      is filtered out; a departing host is replaced by the first remaining
      player; a room left empty is deleted and `null` returned.  The room
      returned is the one read back after the first write, so it still names
      the old host. */
  function RemovePlayerFromRoom(row: RoomRow, playerId: string): (d: Departure)
    ensures var rest := RemoveAll(row.playerIds, playerId);
            && (d.stored.None? <==> rest == [])
            && (d.stored.None? ==> d.returned.None?)
            && (d.stored.Some? ==>
                  && d.stored.value == row.(playerIds := rest,
                                            hostId := if row.hostId == playerId then rest[0] else row.hostId)
                  && d.returned == Some(MapToRoomEntity(row.(playerIds := rest))))
  {
    var rest := RemoveAll(row.playerIds, playerId);
    var first := row.(playerIds := rest);
    if |rest| == 0 then Departure(None, None)
    else if row.hostId == playerId then Departure(Some(first.(hostId := rest[0])), Some(MapToRoomEntity(first)))
    else Departure(Some(first), Some(MapToRoomEntity(first)))
  }

  /** Leaving keeps the other players, in their order, and removes the leaver. */
  lemma {:induction false} LeaveKeepsOthersInOrder(row: RoomRow, playerId: string, before: seq<string>, after: seq<string>)
    requires row.playerIds == before + [playerId] + after
    requires RemovePlayerFromRoom(row, playerId).stored.Some?
    ensures RemovePlayerFromRoom(row, playerId).stored.value.playerIds
            == RemoveAll(before, playerId) + RemoveAll(after, playerId)
  {
    RemoveAllIsOrderedFilter(before + [playerId], playerId, after);
    RemoveAllIsOrderedFilter(before, playerId, [playerId]);
    assert RemoveAll([playerId], playerId) == [];
    assert RemoveAll(before, playerId) + [] == RemoveAll(before, playerId);
  }

  /** The host is one of the players, and stays one after anybody leaves a room
      that does not become empty. */
  lemma HostStaysMember(row: RoomRow, playerId: string)
    requires row.hostId in row.playerIds
    ensures var d := RemovePlayerFromRoom(row, playerId);
            d.stored.Some? ==> d.stored.value.hostId in d.stored.value.playerIds
  {
  }

  /** Removing a player twice is removing once: the second leave finds no one
      to remove. */
  lemma LeaveTwiceIsLeaveOnce(row: RoomRow, playerId: string)
    requires RemovePlayerFromRoom(row, playerId).stored.Some?
    ensures var s := RemovePlayerFromRoom(row, playerId).stored.value;
            RemovePlayerFromRoom(s, playerId).stored == Some(s)
  {
  }

  /** When the host leaves a room where others remain, the stored host moves on
      but the returned room still names the departed host. */
  lemma LeaveReturnsStaleHost(row: RoomRow)
    requires row.hostId in row.playerIds
    requires exists p :: p in row.playerIds && p != row.hostId
    ensures var d := RemovePlayerFromRoom(row, row.hostId);
            && d.stored.Some? && d.returned.Some?
            && d.returned.value.hostId == row.hostId
            && d.stored.value.hostId != row.hostId
  {
    var p :| p in row.playerIds && p != row.hostId;
    assert p in RemoveAll(row.playerIds, row.hostId);
  }

  // ---------------------------------------------------------------------
  // Gates and sweeps

  /** `findRoomByRoomId` on the table. */
  function FindRoomByRoomId(rooms: map<string, RoomRow>, roomId: string): (r: Option<RoomEntity>)
    ensures r.Some? <==> roomId in rooms
    ensures r.Some? ==> r.value == MapToRoomEntity(rooms[roomId])
  {
    if roomId in rooms then Some(MapToRoomEntity(rooms[roomId])) else None
  }

  /** `isUserInRoom`: whether some room in use lists the user. */
  predicate IsUserInRoom(rooms: map<string, RoomRow>, userId: string) {
    exists id | id in rooms :: rooms[id].isUsing && userId in rooms[id].playerIds
  }

  /** A player listed in a room that is in use counts as being in a room,
      whichever room is asked about. */
  lemma MemberIsInRoom(rooms: map<string, RoomRow>, roomId: string, userId: string)
    requires roomId in rooms && rooms[roomId].isUsing && userId in rooms[roomId].playerIds
    ensures IsUserInRoom(rooms, userId)
  {
  }

  /** `isUserInSpecificRoom`: whether that room lists the user, in use or not. */
  predicate IsUserInSpecificRoom(rooms: map<string, RoomRow>, userId: string, roomId: string) {
    roomId in rooms && userId in rooms[roomId].playerIds
  }

  /** Being in a room that is in use is being in some room. */
  lemma SpecificRoomImpliesSomeRoom(rooms: map<string, RoomRow>, userId: string, roomId: string)
    requires IsUserInSpecificRoom(rooms, userId, roomId) && rooms[roomId].isUsing
    ensures IsUserInRoom(rooms, userId)
  {
  }

  /** `countPlayersInRoom`: 0 for a missing room. */
  function CountPlayersInRoom(rooms: map<string, RoomRow>, roomId: string): (n: nat)
    ensures roomId !in rooms ==> n == 0
    ensures roomId in rooms ==> n == |rooms[roomId].playerIds| == MapToRoomEntity(rooms[roomId]).currentPlayers
  {
    if roomId in rooms then |rooms[roomId].playerIds| else 0
  }

  /** `checkRoomPassword`: a missing or public room lets anybody in; a private
      one exactly those who give its stored password. */
  function CheckRoomPassword(rooms: map<string, RoomRow>, roomId: string, password: string): (ok: bool)
    ensures roomId !in rooms ==> ok
    ensures roomId in rooms && !rooms[roomId].isPrivate ==> ok
    ensures roomId in rooms && rooms[roomId].isPrivate ==> (ok <==> rooms[roomId].password == Some(password))
  {
    var found := FindRoomByRoomId(rooms, roomId);
    if found.None? || !found.value.isPrivate then true
    else found.value.password == Some(password)
  }

  /** A private room with no password stored admits nobody. */
  lemma PrivateWithoutPasswordIsClosed(rooms: map<string, RoomRow>, roomId: string, password: string)
    requires roomId in rooms && rooms[roomId].isPrivate && rooms[roomId].password.None?
    ensures !CheckRoomPassword(rooms, roomId, password)
  {
  }

  /** The condition of the `cleanupExpiredRooms` delete. */
  predicate Expired(row: RoomRow, now: int) {
    row.expiresAt.Some? && row.expiresAt.value < now
  }

  function ExpiredIds(rooms: map<string, RoomRow>, now: int): (s: set<string>)
    ensures s <= rooms.Keys
  {
    set id | id in rooms && Expired(rooms[id], now)
  }

  /** The table after `cleanupExpiredRooms(now)`: the expired rows are gone and
      every other row is as it was. */
  function Sweep(rooms: map<string, RoomRow>, now: int): (r: map<string, RoomRow>)
    ensures r.Keys == rooms.Keys - ExpiredIds(rooms, now)
    ensures forall id :: id in r ==> r[id] == rooms[id] && !Expired(r[id], now)
  {
    map id | id in rooms && !Expired(rooms[id], now) :: rooms[id]
  }

  /** The number of rows a sweep deletes is the number of expired rows. */
  lemma SweepCount(rooms: map<string, RoomRow>, now: int)
    ensures |Sweep(rooms, now).Keys| == |rooms.Keys| - |ExpiredIds(rooms, now)|
  {
    var e := ExpiredIds(rooms, now);
    var k := Sweep(rooms, now).Keys;
    assert rooms.Keys == k + e;
    assert k * e == {};
  }

  /** A second sweep at the same time finds nothing to delete. */
  lemma SweepIdempotent(rooms: map<string, RoomRow>, now: int)
    ensures ExpiredIds(Sweep(rooms, now), now) == {}
    ensures Sweep(Sweep(rooms, now), now) == Sweep(rooms, now)
  {
  }

  // ---------------------------------------------------------------------
  // Listings

  /** The filters of `getAllRooms` that the model keeps (the text search is not modelled). */
  datatype RoomFilters = RoomFilters(
    includeInactive: Option<bool>,
    gameMode: Option<string>,
    isPrivate: Option<bool>,
    minPlayers: Option<int>,
    maxPlayers: Option<int>,
    limit: int,
    page: int)

  /** The `WHERE` clause `getAllRooms` builds for `f`. */
  predicate MatchesFilters(row: RoomRow, f: RoomFilters) {
    && (f.includeInactive != Some(true) ==> row.isUsing)
    && (Truthy(f.gameMode) ==> row.gameMode == f.gameMode.value)
    && (f.isPrivate.Some? ==> row.isPrivate == f.isPrivate.value)
    && (f.minPlayers.Some? ==> row.maxPlayers >= f.minPlayers.value)
    && (f.maxPlayers.Some? ==> row.maxPlayers <= f.maxPlayers.value)
  }

  /** Without filters only the rooms in use are listed. */
  lemma DefaultListingShowsRoomsInUse(row: RoomRow, limit: int, page: int)
    ensures MatchesFilters(row, RoomFilters(None, None, None, None, None, limit, page)) <==> row.isUsing
  {
  }

  /** The filter of `findAvailableRooms`: a room in use with fewer players than
      the given bound, or than its own `max_players` column without one. */
  predicate Available(row: RoomRow, maxPlayers: Option<int>) {
    row.isUsing && |row.playerIds| < GetOr(maxPlayers, row.maxPlayers)
  }

  /** A room that is available without a bound is one a join would not find full. */
  lemma AvailableRoomAdmits(row: RoomRow, playerId: string)
    requires Available(row, None) && playerId !in row.playerIds
    ensures AddPlayerToRoom(MapToRoomEntity(row), playerId) == Ok(row.playerIds + [playerId])
  {
  }

  /** `findAvailableRooms`: the ids of the rooms with a free place. */
  function FindAvailableRooms(rooms: map<string, RoomRow>, maxPlayers: Option<int>): (ids: set<string>)
    ensures ids <= rooms.Keys
    ensures forall id :: id in rooms && Available(rooms[id], maxPlayers) ==> id in ids
    ensures forall id :: id in ids ==> rooms[id].isUsing
    ensures forall id :: id in ids ==> |rooms[id].playerIds| < GetOr(maxPlayers, rooms[id].maxPlayers)
  {
    set id | id in rooms && Available(rooms[id], maxPlayers)
  }

  /** What `getAllRooms` reports: the ids of the matching rows (their order,
      and so which of them one page holds, depends on activity times the model
      does not keep) and the paging numbers. */
  datatype RoomListing = RoomListing(matching: set<string>, paging: Paging)

  /** `getAllRooms`: the rows matching the filters, counted, and the paging numbers. */
  function GetAllRooms(rooms: map<string, RoomRow>, f: RoomFilters): (r: RoomListing)
    ensures r.matching <= rooms.Keys
    ensures forall id :: id in rooms && MatchesFilters(rooms[id], f) ==> id in r.matching
    ensures forall id :: id in r.matching ==> MatchesFilters(rooms[id], f)
    ensures r.paging == Paginate(f.limit, f.page, |r.matching|)
  {
    var ids := set id | id in rooms && MatchesFilters(rooms[id], f);
    RoomListing(ids, Paginate(f.limit, f.page, |ids|))
  }
}
