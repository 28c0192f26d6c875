/** The stored side of backend/src/repository/room.repository.ts: the `rooms`
    table as a map from `room_id` to row.  Lookups map rows to entities with
    `Rooms.MapToRoomEntity`, and the read-only queries are the functions of
    `Rooms` over this map; each writing operation reads the row, computes
    its update with the functions of `Rooms` and writes it back. */
module RoomStore {
  import opened Common
  import opened Rooms

  class RoomRepository {
    var rooms: map<string, RoomRow>

    /** Every row is stored under its own `room_id`. */
    ghost predicate Valid()
      reads this
    {
      forall id :: id in rooms ==> rooms[id].roomId == id
    }

    constructor ()
      ensures Valid() && rooms == map[]
    {
      rooms := map[];
    }

    /** `createRoom`: insert the row with its defaults and read it back; a
        taken `room_id` violates the unique key. */
    method CreateRoom(room: Room) returns (r: Result<RoomEntity, RoomError>)
      requires Valid()
      modifies this
      ensures Valid()
      ensures room.roomId in old(rooms) ==> r == Err(RoomIdExists(room.roomId)) && rooms == old(rooms)
      ensures room.roomId !in old(rooms) ==>
                && rooms == old(rooms)[room.roomId := CreateRow(room)]
                && r == Ok(MapToRoomEntity(CreateRow(room)))
    {
      if room.roomId in rooms {
        return Err(RoomIdExists(room.roomId));
      }
      rooms := rooms[room.roomId := CreateRow(room)];
      r := Ok(MapToRoomEntity(rooms[room.roomId]));
    }

    /** `updateRoomByRoomId`: write the fields present in `p`, then read back
        the room under `p.roomId || roomId`. */
    method UpdateRoomByRoomId(roomId: string, p: RoomPatch) returns (r: Option<RoomEntity>)
      requires Valid()
      modifies this
      ensures Valid()
      ensures roomId !in old(rooms) ==> r.None? && rooms == old(rooms)
      ensures roomId in old(rooms) ==>
                && rooms == old(rooms)[roomId := ApplyRoomPatch(old(rooms)[roomId], p)]
                && r == FindRoomByRoomId(rooms, if Truthy(p.roomId) then p.roomId.value else roomId)
      ensures roomId in old(rooms) && !Truthy(p.roomId) ==> r == Some(MapToRoomEntity(rooms[roomId]))
    {
      if roomId !in rooms {
        return None;
      }
      rooms := rooms[roomId := ApplyRoomPatch(rooms[roomId], p)];
      r := FindRoomByRoomId(rooms, if Truthy(p.roomId) then p.roomId.value else roomId);
    }

    /** `addPlayerToRoom`. */
    method AddPlayerToRoom(roomId: string, playerId: string) returns (r: Result<Option<RoomEntity>, RoomError>)
      requires Valid()
      modifies this
      ensures Valid()
      ensures roomId !in old(rooms) ==> r == Ok(None) && rooms == old(rooms)
      ensures roomId in old(rooms) ==>
                match Rooms.AddPlayerToRoom(MapToRoomEntity(old(rooms)[roomId]), playerId)
                case Err(e) => r == Err(e) && rooms == old(rooms)
                case Ok(ids) =>
                  && rooms == old(rooms)[roomId := old(rooms)[roomId].(playerIds := ids)]
                  && r == Ok(Some(MapToRoomEntity(rooms[roomId])))
    {
      var found := FindRoomByRoomId(rooms, roomId);
      if found.None? {
        return Ok(None);
      }
      var room := found.value;
      if !room.isUsing {
        return Err(RoomNotActive);
      }
      if room.currentPlayers != 0 && room.maxPlayers != 0 && room.currentPlayers >= room.maxPlayers {
        return Err(RoomFull(room.maxPlayers));
      }
      if playerId in room.playerIds {
        assert rooms[roomId].(playerIds := room.playerIds) == rooms[roomId];
        return Ok(Some(room));
      }
      var updated := UpdateRoomByRoomId(roomId, NoRoomChange.(playerIds := Some(room.playerIds + [playerId])));
      r := Ok(updated);
    }

    /** `deleteRoomByRoomId`: whether a row was deleted. */
    method DeleteRoomByRoomId(roomId: string) returns (deleted: bool)
      requires Valid()
      modifies this
      ensures Valid()
      ensures deleted <==> roomId in old(rooms)
      ensures rooms == old(rooms) - {roomId}
    {
      deleted := roomId in rooms;
      rooms := rooms - {roomId};
    }

    /** `removePlayerFromRoom`: write the filtered list, hand the host role on
        if the host left, delete the room if nobody is left. */
    method RemovePlayerFromRoom(roomId: string, playerId: string) returns (r: Option<RoomEntity>)
      requires Valid()
      modifies this
      ensures Valid()
      ensures roomId !in old(rooms) ==> r.None? && rooms == old(rooms)
      ensures roomId in old(rooms) ==>
                var d := Rooms.RemovePlayerFromRoom(old(rooms)[roomId], playerId);
                && r == d.returned
                && rooms == (if d.stored.Some? then old(rooms)[roomId := d.stored.value] else old(rooms) - {roomId})
    {
      var found := FindRoomByRoomId(rooms, roomId);
      if found.None? {
        return None;
      }
      var room := found.value;
      var updatedPlayerIds := RemoveAll(room.playerIds, playerId);
      var updatedRoom := UpdateRoomByRoomId(roomId, NoRoomChange.(playerIds := Some(updatedPlayerIds)));
      if room.hostId == playerId && updatedRoom.Some? && |updatedRoom.value.playerIds| > 0 {
        var _ := UpdateRoomByRoomId(roomId, NoRoomChange.(hostId := Some(updatedRoom.value.playerIds[0])));
      }
      if updatedRoom.Some? && |updatedRoom.value.playerIds| == 0 {
        var _ := DeleteRoomByRoomId(roomId);
        return None;
      }
      r := updatedRoom;
    }

    /** `updateRoomStatus`. */
    method UpdateRoomStatus(roomId: string, isUsing: bool) returns (r: Option<RoomEntity>)
      requires Valid()
      modifies this
      ensures Valid()
      ensures roomId !in old(rooms) ==> r.None? && rooms == old(rooms)
      ensures roomId in old(rooms) ==>
                && rooms == old(rooms)[roomId := old(rooms)[roomId].(isUsing := isUsing)]
                && r == Some(MapToRoomEntity(rooms[roomId]))
    {
      r := UpdateRoomByRoomId(roomId, NoRoomChange.(isUsing := Some(isUsing)));
    }

    /** `cleanupExpiredRooms(now)`: delete the expired rows and count them. */
    method CleanupExpiredRooms(now: int) returns (deleted: nat)
      requires Valid()
      modifies this
      ensures Valid()
      ensures rooms == Sweep(old(rooms), now)
      ensures deleted == |ExpiredIds(old(rooms), now)| == |old(rooms).Keys| - |rooms.Keys|
    {
      var expired := ExpiredIds(rooms, now);
      SweepCount(rooms, now);
      rooms := Sweep(rooms, now);
      deleted := |expired|;
    }
  }
}
