/** The room endpoints of backend/src/route/room.routers.ts: the request
    validator, the room-id generator with its bounded retry loop, and the
    guard chains in front of create, join, leave, update, status, delete and
    transfer-host.  Each handler is a method on the room store; it answers
    with the entity it produced or with the failure (HTTP status and message)
    its first failing guard sends. */
module RoomRoutes {
  import opened Common
  import Uid
  import opened Rooms
  import opened RoomStore

  /** A refused request: one error message, or the list of validation errors (sent with 400). */
  datatype Failure = Failure(status: int, error: string) | Invalid(errors: seq<string>)

  // ---------------------------------------------------------------------
  // Room ids

  const RoomIdChars: string := "ABCDEFGHIJKLMNOPQRSTUVWXYZ0123456789"

  /** The id `generateRoomUID` builds from six draws. */
  function RoomUID(rs: seq<real>): string {
    "ROOM-" + Uid.CharsFrom(RoomIdChars, rs)
  }

  /** `generateRoomUID`: "ROOM-" and six characters of `RoomIdChars`. */
  method GenerateRoomUID(rs: seq<real>) returns (roomId: string)
    requires |rs| == 6 && AllDraws(rs)
    ensures roomId == RoomUID(rs)
    ensures |roomId| == 11 && roomId[..5] == "ROOM-"
    ensures forall i :: 5 <= i < 11 ==> roomId[i] in RoomIdChars
  {
    roomId := Uid.AppendRandomChars("ROOM-", RoomIdChars, rs);
    Uid.CharsFromShape(RoomIdChars, rs);
    assert roomId[5..] == Uid.CharsFrom(RoomIdChars, rs);
  }

  /** The `k`-th candidate of the retry loop, built from draws `6k` to `6k + 5`. */
  function Candidate(rs: seq<real>, k: nat): string
    requires k < 10 && |rs| >= 60
  {
    RoomUID(rs[6 * k..6 * k + 6])
  }

  /** The first attempt from `k` on whose candidate is not taken, if any of the ten is free. */
  function FirstFreeCandidate(rooms: map<string, RoomRow>, rs: seq<real>, k: nat): (r: Option<nat>)
    requires k <= 10 && |rs| >= 60
    ensures r.Some? ==>
              && k <= r.value < 10 && Candidate(rs, r.value) !in rooms
              && forall j :: k <= j < r.value ==> Candidate(rs, j) in rooms
    ensures r.None? <==> forall j :: k <= j < 10 ==> Candidate(rs, j) in rooms
    decreases 10 - k
  {
    if k == 10 then None
    else if Candidate(rs, k) !in rooms then Some(k)
    else FirstFreeCandidate(rooms, rs, k + 1)
  }

  /** The create handler's loop: up to ten fresh candidates, stopping at the
      first one no room has; `None` when all ten are taken. */
  method PickRoomId(repo: RoomRepository, rs: seq<real>) returns (roomId: Option<string>)
    requires |rs| >= 60 && AllDraws(rs)
    ensures roomId == (match FirstFreeCandidate(repo.rooms, rs, 0)
                       case None => None
                       case Some(k) => Some(Candidate(rs, k)))
  {
    var isUnique := false;
    var attempts := 0;
    var candidate := "";
    while !isUnique && attempts < 10
      invariant 0 <= attempts <= 10
      invariant !isUnique ==> FirstFreeCandidate(repo.rooms, rs, 0) == FirstFreeCandidate(repo.rooms, rs, attempts)
      invariant isUnique ==> 1 <= attempts && FirstFreeCandidate(repo.rooms, rs, 0) == Some(attempts - 1)
                             && candidate == Candidate(rs, attempts - 1)
    {
      assert AllDraws(rs[6 * attempts..6 * attempts + 6]);
      candidate := GenerateRoomUID(rs[6 * attempts..6 * attempts + 6]);
      var existing := FindRoomByRoomId(repo.rooms, candidate);
      if existing.None? {
        isUnique := true;
      }
      attempts := attempts + 1;
    }
    if !isUnique {
      return None;
    }
    roomId := Some(candidate);
  }

  // ---------------------------------------------------------------------
  // Validation

  /** `new Date(data.expiresAt)` for a truthy value: a valid time or an invalid date. */
  datatype DateInput = ValidDate(time: int) | InvalidDate

  /** A truthy `playerIds` value: an array of ids, or anything else. */
  datatype PlayerIdsInput = IdList(ids: seq<string>) | NotAList

  /** The JSON body of a create or update request, `Some` for each field sent.
      `isPrivate` is given as `Boolean(data.isPrivate)`; `gameSettings` as
      the JSON text of the settings object. */
  datatype RoomBody = RoomBody(
    hostId: Option<string>,
    roomName: Option<string>,
    maxPlayers: Option<int>,
    password: Option<string>,
    gameMode: Option<string>,
    description: Option<string>,
    isPrivate: Option<bool>,
    playerIds: Option<PlayerIdsInput>,
    expiresAt: Option<DateInput>,
    roomId: Option<string>,
    userId: Option<string>,
    gameSettings: Option<string>)

  datatype FieldError =
    HostIdRequired | RoomNameTooLong | MaxPlayersOutOfRange | PasswordTooLong | GameModeTooLong | InvalidExpiresAt

  /** The position of each check in `validateRoomData`. */
  function Rank(e: FieldError): nat {
    match e
    case HostIdRequired => 0
    case RoomNameTooLong => 1
    case MaxPlayersOutOfRange => 2
    case PasswordTooLong => 3
    case GameModeTooLong => 4
    case InvalidExpiresAt => 5
  }

  function Message(e: FieldError): string {
    match e
    case HostIdRequired => "hostId is required"
    case RoomNameTooLong => "roomName must be less than 100 characters"
    case MaxPlayersOutOfRange => "maxPlayers must be between 2 and 20"
    case PasswordTooLong => "password must be less than 100 characters"
    case GameModeTooLong => "gameMode must be less than 50 characters"
    case InvalidExpiresAt => "expiresAt must be a valid date"
  }

  function Messages(es: seq<FieldError>): (ms: seq<string>)
    ensures |ms| == |es| && forall i :: 0 <= i < |es| ==> ms[i] == Message(es[i])
  {
    seq(|es|, i requires 0 <= i < |es| => Message(es[i]))
  }

  predicate RoomNameOk(s: string) { |s| <= 100 }
  predicate MaxPlayersOk(n: int) { 2 <= n <= 20 }
  predicate PasswordOk(s: string) { |s| <= 100 }
  predicate GameModeOk(s: string) { |s| <= 50 }

  /** What `validateRoomData` returns. */
  datatype Validation = Validation(isValid: bool, errors: seq<FieldError>, roomData: RoomPatch)

  /** Whether the check for `e` fails on `data`. */
  predicate Fails(data: RoomBody, e: FieldError) {
    match e
    case HostIdRequired => !Truthy(data.hostId)
    case RoomNameTooLong => Truthy(data.roomName) && !RoomNameOk(data.roomName.value)
    case MaxPlayersOutOfRange => TruthyInt(data.maxPlayers) && !MaxPlayersOk(data.maxPlayers.value)
    case PasswordTooLong => Truthy(data.password) && !PasswordOk(data.password.value)
    case GameModeTooLong => Truthy(data.gameMode) && !GameModeOk(data.gameMode.value)
    case InvalidExpiresAt => data.expiresAt == Some(InvalidDate)
  }

  /** The error `e` alone when its check fails on `data`, else nothing. */
  function Check(data: RoomBody, e: FieldError): (es: seq<FieldError>)
    ensures forall x :: x in es <==> x == e && Fails(data, e)
    ensures |es| <= 1 && (es != [] ==> es[0] == e)
  {
    if Fails(data, e) then [e] else []
  }

  /** Errors listed in the order their checks run. */
  predicate RankOrdered(es: seq<FieldError>) {
    forall i, j :: 0 <= i < j < |es| ==> Rank(es[i]) < Rank(es[j])
  }

  /** Every error in `es` comes from a check that runs before check number `n`. */
  predicate RanksBelow(es: seq<FieldError>, n: nat) {
    forall x :: x in es ==> Rank(x) < n
  }

  /** Running a later check after `es` keeps the errors in check order. */
  lemma AppendLaterCheck(data: RoomBody, es: seq<FieldError>, e: FieldError)
    requires RankOrdered(es) && RanksBelow(es, Rank(e))
    ensures RankOrdered(es + Check(data, e)) && RanksBelow(es + Check(data, e), Rank(e) + 1)
  {
    var r := es + Check(data, e);
    forall i, j | 0 <= i < j < |r| ensures Rank(r[i]) < Rank(r[j]) {
      assert r[i] == es[i] && es[i] in es;
      if j < |es| {
        assert r[j] == es[j];
      } else {
        assert r[j] == e;
      }
    }
  }

  /** The error list of `validateRoomData`: one error per failed check, each
      once, in the order the checks run. */
  function ValidationErrors(data: RoomBody): (es: seq<FieldError>)
    ensures forall e :: e in es <==> Fails(data, e)
    ensures RankOrdered(es)
  {
    var e1 := Check(data, HostIdRequired);
    var e2 := e1 + Check(data, RoomNameTooLong);
    var e3 := e2 + Check(data, MaxPlayersOutOfRange);
    var e4 := e3 + Check(data, PasswordTooLong);
    var e5 := e4 + Check(data, GameModeTooLong);
    var e6 := e5 + Check(data, InvalidExpiresAt);
    AppendLaterCheck(data, [], HostIdRequired);
    assert [] + e1 == e1;
    AppendLaterCheck(data, e1, RoomNameTooLong);
    AppendLaterCheck(data, e2, MaxPlayersOutOfRange);
    AppendLaterCheck(data, e3, PasswordTooLong);
    AppendLaterCheck(data, e4, GameModeTooLong);
    AppendLaterCheck(data, e5, InvalidExpiresAt);
    e6
  }

  /** The `roomData` of `validateRoomData`: each field that passes its check is
      copied; `roomId` and `isUsing` never are. */
  function ValidatedData(data: RoomBody): (d: RoomPatch)
    ensures d.roomId.None? && d.isUsing.None?
    ensures d.hostId == OrNull(data.hostId)
    ensures d.roomName.Some? <==> Truthy(data.roomName) && RoomNameOk(data.roomName.value)
    ensures d.maxPlayers.Some? <==> TruthyInt(data.maxPlayers) && MaxPlayersOk(data.maxPlayers.value)
    ensures d.password.Some? <==> Truthy(data.password) && PasswordOk(data.password.value)
    ensures d.gameMode.Some? <==> Truthy(data.gameMode) && GameModeOk(data.gameMode.value)
    ensures d.roomName.Some? ==> d.roomName == data.roomName
    ensures d.maxPlayers.Some? ==> d.maxPlayers == data.maxPlayers
    ensures d.password.Some? ==> d.password == data.password
    ensures d.gameMode.Some? ==> d.gameMode == data.gameMode
    ensures d.description == OrNull(data.description)
    ensures d.isPrivate == data.isPrivate
    ensures d.playerIds == (match data.playerIds
                            case None => None
                            case Some(IdList(ids)) => Some(ids)
                            case Some(NotAList) => Some([]))
    ensures d.expiresAt.Some? <==> data.expiresAt.Some? && data.expiresAt.value.ValidDate?
    ensures d.expiresAt.Some? ==> data.expiresAt == Some(ValidDate(d.expiresAt.value))
    ensures d.gameSettings == OrNull(data.gameSettings)
  {
    RoomPatch(
      None,
      if Truthy(data.roomName) && RoomNameOk(data.roomName.value) then data.roomName else None,
      OrNull(data.description),
      match data.playerIds
      case None => None
      case Some(IdList(ids)) => Some(ids)
      case Some(NotAList) => Some([]),
      OrNull(data.hostId),
      if TruthyInt(data.maxPlayers) && MaxPlayersOk(data.maxPlayers.value) then data.maxPlayers else None,
      None,
      data.isPrivate,
      if Truthy(data.password) && PasswordOk(data.password.value) then data.password else None,
      if Truthy(data.gameMode) && GameModeOk(data.gameMode.value) then data.gameMode else None,
      match data.expiresAt
      case Some(ValidDate(t)) => Some(t)
      case _ => None,
      OrNull(data.gameSettings))
  }

  /** No error is reported exactly when each of the six checks passes. */
  lemma NoErrorsIffAllPass(data: RoomBody)
    ensures ValidationErrors(data) == [] <==>
              && !Fails(data, HostIdRequired) && !Fails(data, RoomNameTooLong)
              && !Fails(data, MaxPlayersOutOfRange) && !Fails(data, PasswordTooLong)
              && !Fails(data, GameModeTooLong) && !Fails(data, InvalidExpiresAt)
  {
    var es := ValidationErrors(data);
    if es != [] {
      assert es[0] in es;
      match es[0]
      case HostIdRequired =>
      case RoomNameTooLong =>
      case MaxPlayersOutOfRange =>
      case PasswordTooLong =>
      case GameModeTooLong =>
      case InvalidExpiresAt =>
    }
  }

  /** `validateRoomData`: valid exactly when no check fails. */
  function RoomValidation(data: RoomBody): (v: Validation)
    ensures v.isValid <==> forall e :: !Fails(data, e)
    ensures v.isValid <==>
              && !Fails(data, HostIdRequired) && Truthy(data.hostId)
              && !Fails(data, RoomNameTooLong) && !Fails(data, MaxPlayersOutOfRange)
              && !Fails(data, PasswordTooLong) && !Fails(data, GameModeTooLong)
              && !Fails(data, InvalidExpiresAt)
    ensures v.isValid <==> v.errors == []
    ensures v.errors == ValidationErrors(data)
    ensures v.roomData == ValidatedData(data)
  {
    var errors := ValidationErrors(data);
    NoErrorsIffAllPass(data);
    Validation(errors == [], errors, ValidatedData(data))
  }

  /** The errors of the first five checks of `validateRoomData`, in order. */
  function LimitErrors(data: RoomBody): seq<FieldError> {
    Check(data, HostIdRequired) + Check(data, RoomNameTooLong) + Check(data, MaxPlayersOutOfRange)
      + Check(data, PasswordTooLong) + Check(data, GameModeTooLong)
  }

  /** The first part of `validateRoomData`: `hostId` and the four bounded
      fields, each either rejected with its error or copied when present. */
  method ValidateLimits(data: RoomBody) returns (errors: seq<FieldError>, roomData: RoomPatch)
    ensures errors == LimitErrors(data)
    ensures var d := ValidatedData(data);
            roomData == NoRoomChange.(hostId := d.hostId, roomName := d.roomName, maxPlayers := d.maxPlayers,
                                      password := d.password, gameMode := d.gameMode)
  {
    ghost var d := ValidatedData(data);
    errors := [];
    roomData := NoRoomChange;
    if Fails(data, HostIdRequired) {
      errors := errors + [HostIdRequired];
    } else {
      roomData := roomData.(hostId := data.hostId);
    }
    ghost var e := Check(data, HostIdRequired);
    assert errors == e;
    if Fails(data, RoomNameTooLong) {
      errors := errors + [RoomNameTooLong];
    } else if Truthy(data.roomName) {
      roomData := roomData.(roomName := data.roomName);
    }
    e := e + Check(data, RoomNameTooLong);
    assert errors == e;
    if Fails(data, MaxPlayersOutOfRange) {
      errors := errors + [MaxPlayersOutOfRange];
    } else if TruthyInt(data.maxPlayers) {
      roomData := roomData.(maxPlayers := data.maxPlayers);
    }
    e := e + Check(data, MaxPlayersOutOfRange);
    assert errors == e;
    if Fails(data, PasswordTooLong) {
      errors := errors + [PasswordTooLong];
    } else if Truthy(data.password) {
      roomData := roomData.(password := data.password);
    }
    e := e + Check(data, PasswordTooLong);
    assert errors == e;
    if Fails(data, GameModeTooLong) {
      errors := errors + [GameModeTooLong];
    } else if Truthy(data.gameMode) {
      roomData := roomData.(gameMode := data.gameMode);
    }
    e := e + Check(data, GameModeTooLong);
    assert errors == e;
  }

  /** The unchecked fields of `validateRoomData`: each one present in the body
      is copied into `roomData`. */
  method CopyUncheckedFields(data: RoomBody, roomData: RoomPatch) returns (r: RoomPatch)
    requires roomData.description.None? && roomData.isPrivate.None?
    requires roomData.playerIds.None? && roomData.gameSettings.None?
    ensures var d := ValidatedData(data);
            r == roomData.(description := d.description, isPrivate := d.isPrivate,
                           playerIds := d.playerIds, gameSettings := d.gameSettings)
  {
    r := roomData;
    if Truthy(data.description) {
      r := r.(description := data.description);
    }
    if data.isPrivate.Some? {
      r := r.(isPrivate := data.isPrivate);
    }
    match data.playerIds {
      case None =>
      case Some(IdList(ids)) => r := r.(playerIds := Some(ids));
      case Some(NotAList) => r := r.(playerIds := Some([]));
    }
    if Truthy(data.gameSettings) {
      r := r.(gameSettings := data.gameSettings);
    }
  }

  /** `validateRoomData` as the source writes it: an `errors` list and a
      `roomData` record filled check by check. */
  method ValidateRoomData(data: RoomBody) returns (v: Validation)
    ensures v == RoomValidation(data)
  {
    var errors, roomData := ValidateLimits(data);
    roomData := CopyUncheckedFields(data, roomData);
    match data.expiresAt {
      case None =>
      case Some(InvalidDate) => errors := errors + [InvalidExpiresAt];
      case Some(ValidDate(t)) => roomData := roomData.(expiresAt := Some(t));
    }
    assert errors == LimitErrors(data) + Check(data, InvalidExpiresAt);
    assert roomData == ValidatedData(data);
    v := Validation(|errors| == 0, errors, roomData);
  }

  /** A valid body always names a host, so the create handler's second
      `hostId` check never fires. */
  lemma ValidBodyHasHost(data: RoomBody)
    requires RoomValidation(data).isValid
    ensures Truthy(RoomValidation(data).roomData.hostId)
  {
  }

  // ---------------------------------------------------------------------
  // Create

  /** The guards of `POST /create-room` before an id is drawn. */
  function CreateRoomGuard(rooms: map<string, RoomRow>, body: RoomBody): (r: Option<Failure>)
    ensures !RoomValidation(body).isValid ==> r == Some(Invalid(Messages(RoomValidation(body).errors)))
    ensures RoomValidation(body).isValid && IsUserInRoom(rooms, body.hostId.value) ==>
              r == Some(Failure(STATUS_BAD_REQUEST, "Host is already in another room"))
    ensures r.None? <==> RoomValidation(body).isValid && !IsUserInRoom(rooms, body.hostId.value)
  {
    var v := RoomValidation(body);
    if !v.isValid then Some(Invalid(Messages(v.errors)))
    else if IsUserInRoom(rooms, v.roomData.hostId.value) then Some(Failure(STATUS_BAD_REQUEST, "Host is already in another room"))
    else None
  }

  /** The `Room` the create handler inserts: the host first in a repeat-free
      player list, in use, with 4 places, public and in mode "default" unless
      the body says otherwise. */
  function NewRoom(data: RoomPatch, roomId: string): (room: Room)
    requires data.hostId.Some?
    ensures room.roomId == roomId && room.hostId == data.hostId.value && room.isUsing
    ensures room.playerIds == Some(Dedup([data.hostId.value] + GetOr(data.playerIds, [])))
    ensures room.maxPlayers == Some(if TruthyInt(data.maxPlayers) then data.maxPlayers.value else 4)
    ensures room.isPrivate == Some(data.isPrivate == Some(true))
    ensures room.gameMode == Some(if Truthy(data.gameMode) then data.gameMode.value else "default")
    ensures room.roomName == data.roomName && room.description == data.description
    ensures room.password == data.password && room.expiresAt == data.expiresAt
    ensures room.gameSettings == data.gameSettings
  {
    Room(roomId, data.roomName, data.description,
         Some(Dedup([data.hostId.value] + GetOr(data.playerIds, []))),
         data.hostId.value,
         Some(if TruthyInt(data.maxPlayers) then data.maxPlayers.value else 4),
         true,
         Some(data.isPrivate == Some(true)),
         data.password,
         Some(if Truthy(data.gameMode) then data.gameMode.value else "default"),
         data.expiresAt,
         data.gameSettings)
  }

  /** A created room lists its host first, lists every requested player once,
      and has a capacity in [2, 20]. */
  lemma CreatedRoomShape(body: RoomBody, roomId: string)
    requires RoomValidation(body).isValid
    ensures var data := RoomValidation(body).roomData;
            var e := MapToRoomEntity(CreateRow(NewRoom(data, roomId)));
            && |e.playerIds| > 0 && e.playerIds[0] == e.hostId == body.hostId.value
            && NoDup(e.playerIds)
            && (forall p :: p in GetOr(data.playerIds, []) ==> p in e.playerIds)
            && (forall p :: p in e.playerIds ==> p == e.hostId || p in GetOr(data.playerIds, []))
            && 2 <= e.maxPlayers <= 20
            && (body.maxPlayers.None? ==> e.maxPlayers == 4)
            && (body.gameMode.None? ==> e.gameMode == "default")
            && e.isUsing
  {
    var data := RoomValidation(body).roomData;
    DedupProperties([data.hostId.value] + GetOr(data.playerIds, []));
  }

  /** Creation does not bound the initial players by the capacity: asking for
      two places and three players gives a room holding three. */
  lemma CreateCanOverfill()
    ensures var body := RoomBody(Some("h"), None, Some(2), None, None, None, None,
                                 Some(IdList(["a", "b"])), None, None, None, None);
            var e := MapToRoomEntity(CreateRow(NewRoom(RoomValidation(body).roomData, "ROOM-A")));
            RoomValidation(body).isValid && e.maxPlayers == 2 && e.currentPlayers == 3
  {
    var body := RoomBody(Some("h"), None, Some(2), None, None, None, None,
                         Some(IdList(["a", "b"])), None, None, None, None);
    var data := RoomValidation(body).roomData;
    assert data.hostId == Some("h") && data.playerIds == Some(["a", "b"]);
    assert ["h"] + ["a", "b"] == ["h", "a", "b"];
    DedupOfNoDup(["h", "a", "b"]);
  }

  /** `POST /create-room`. */
  method CreateRoomRoute(repo: RoomRepository, body: RoomBody, rs: seq<real>) returns (r: Result<RoomEntity, Failure>)
    requires repo.Valid() && |rs| >= 60 && AllDraws(rs)
    modifies repo
    ensures repo.Valid()
    ensures CreateRoomGuard(old(repo.rooms), body).Some? ==>
              r == Err(CreateRoomGuard(old(repo.rooms), body).value) && repo.rooms == old(repo.rooms)
    ensures CreateRoomGuard(old(repo.rooms), body).None? ==>
              match FirstFreeCandidate(old(repo.rooms), rs, 0)
              case None =>
                && r == Err(Failure(STATUS_INTERNAL_ERROR, "Failed to generate unique room ID"))
                && repo.rooms == old(repo.rooms)
              case Some(k) =>
                var row := CreateRow(NewRoom(RoomValidation(body).roomData, Candidate(rs, k)));
                && repo.rooms == old(repo.rooms)[Candidate(rs, k) := row]
                && r == Ok(MapToRoomEntity(row))
  {
    var v := ValidateRoomData(body);
    if !v.isValid {
      return Err(Invalid(Messages(v.errors)));
    }
    var hostId := v.roomData.hostId;
    if !Truthy(hostId) {
      return Err(Failure(STATUS_BAD_REQUEST, "hostId is required"));
    }
    if IsUserInRoom(repo.rooms, hostId.value) {
      return Err(Failure(STATUS_BAD_REQUEST, "Host is already in another room"));
    }
    var roomId := PickRoomId(repo, rs);
    if roomId.None? {
      return Err(Failure(STATUS_INTERNAL_ERROR, "Failed to generate unique room ID"));
    }
    var created := repo.CreateRoom(NewRoom(v.roomData, roomId.value));
    match created {
      case Ok(e) => r := Ok(e);
      case Err(e) => r := Err(Failure(STATUS_BAD_REQUEST, ErrorMessage(e)));
    }
  }

  /** The messages the room repository throws with. */
  function ErrorMessage(e: RoomError): string {
    match e
    case RoomNotActive => "Room is not active"
    case RoomFull(m) => "Room is full (max " + IntToString(m) + " players)"
    case RoomIdExists(id) => "Room ID '" + id + "' already exists"
  }

  // ---------------------------------------------------------------------
  // Join and leave

  /** The guards of `POST /room/:roomId/join`, in their order: a player id, an
      existing room, a room in use, the password of a private room, and a
      player not in any room in use. */
  function JoinGuard(rooms: map<string, RoomRow>, roomId: string, playerId: Option<string>, password: Option<string>): (r: Option<Failure>)
    ensures !Truthy(playerId) ==> r == Some(Failure(STATUS_BAD_REQUEST, "playerId is required"))
    ensures Truthy(playerId) && roomId !in rooms ==> r == Some(Failure(STATUS_NOT_FOUND, "Room not found"))
    ensures Truthy(playerId) && roomId in rooms && !rooms[roomId].isUsing ==>
              r == Some(Failure(STATUS_BAD_REQUEST, "Room is not active"))
    ensures Truthy(playerId) && roomId in rooms && rooms[roomId].isUsing && rooms[roomId].isPrivate
            && !CheckRoomPassword(rooms, roomId, OrEmpty(password)) ==>
              r == Some(Failure(STATUS_UNAUTHORIZED, "Incorrect room password"))
    ensures Truthy(playerId) && roomId in rooms && rooms[roomId].isUsing
            && (rooms[roomId].isPrivate ==> CheckRoomPassword(rooms, roomId, OrEmpty(password)))
            && IsUserInRoom(rooms, playerId.value) ==>
              r == Some(Failure(STATUS_BAD_REQUEST, "Player is already in another room"))
    ensures r.None? <==>
              && Truthy(playerId) && roomId in rooms && rooms[roomId].isUsing
              && (rooms[roomId].isPrivate ==> CheckRoomPassword(rooms, roomId, OrEmpty(password)))
              && !IsUserInRoom(rooms, playerId.value)
  {
    if !Truthy(playerId) then Some(Failure(STATUS_BAD_REQUEST, "playerId is required"))
    else if roomId !in rooms then Some(Failure(STATUS_NOT_FOUND, "Room not found"))
    else if !rooms[roomId].isUsing then Some(Failure(STATUS_BAD_REQUEST, "Room is not active"))
    else if rooms[roomId].isPrivate && !CheckRoomPassword(rooms, roomId, OrEmpty(password)) then
      Some(Failure(STATUS_UNAUTHORIZED, "Incorrect room password"))
    else if IsUserInRoom(rooms, playerId.value) then Some(Failure(STATUS_BAD_REQUEST, "Player is already in another room"))
    else None
  }

  /** How the join handler answers an error thrown by `addPlayerToRoom`. */
  function JoinFailure(e: RoomError): Failure {
    var message := "Failed to add player to room: " + ErrorMessage(e);
    if e.RoomFull? || e.RoomNotActive? then Failure(STATUS_BAD_REQUEST, message)
    else Failure(STATUS_INTERNAL_ERROR, message)
  }

  /** Because the last guard asks about every room in use, a player already
      listed in this very room is turned away instead of being let through. */
  lemma JoinRejectsMemberOfThisRoom(rooms: map<string, RoomRow>, roomId: string, playerId: string, password: Option<string>)
    requires roomId in rooms && playerId in rooms[roomId].playerIds && playerId != ""
    ensures JoinGuard(rooms, roomId, Some(playerId), password).Some?
  {
    if rooms[roomId].isUsing {
      MemberIsInRoom(rooms, roomId, playerId);
    }
  }

  /** A join that passes the guards either finds the room full or appends the
      player at the end. */
  lemma JoinAppendsNewcomer(rooms: map<string, RoomRow>, roomId: string, playerId: string, password: Option<string>)
    requires JoinGuard(rooms, roomId, Some(playerId), password).None?
    ensures var e := MapToRoomEntity(rooms[roomId]);
            && playerId !in e.playerIds
            && (AddPlayerToRoom(e, playerId).Ok? <==> !IsFull(e))
            && (AddPlayerToRoom(e, playerId).Ok? ==> AddPlayerToRoom(e, playerId).value == e.playerIds + [playerId])
  {
    if playerId in rooms[roomId].playerIds {
      MemberIsInRoom(rooms, roomId, playerId);
    }
  }

  /** `POST /room/:roomId/join`. */
  method JoinRoute(repo: RoomRepository, roomId: string, playerId: Option<string>, password: Option<string>)
    returns (r: Result<RoomEntity, Failure>)
    requires repo.Valid()
    modifies repo
    ensures repo.Valid()
    ensures JoinGuard(old(repo.rooms), roomId, playerId, password).Some? ==>
              r == Err(JoinGuard(old(repo.rooms), roomId, playerId, password).value) && repo.rooms == old(repo.rooms)
    ensures JoinGuard(old(repo.rooms), roomId, playerId, password).None? ==>
              var row := old(repo.rooms)[roomId];
              match Rooms.AddPlayerToRoom(MapToRoomEntity(row), playerId.value)
              case Err(e) => r == Err(JoinFailure(e)) && repo.rooms == old(repo.rooms)
              case Ok(ids) =>
                && repo.rooms == old(repo.rooms)[roomId := row.(playerIds := ids)]
                && r == Ok(MapToRoomEntity(repo.rooms[roomId]))
  {
    if !Truthy(playerId) {
      return Err(Failure(STATUS_BAD_REQUEST, "playerId is required"));
    }
    var room := FindRoomByRoomId(repo.rooms, roomId);
    if room.None? {
      return Err(Failure(STATUS_NOT_FOUND, "Room not found"));
    }
    if !room.value.isUsing {
      return Err(Failure(STATUS_BAD_REQUEST, "Room is not active"));
    }
    if room.value.isPrivate {
      var passwordMatch := CheckRoomPassword(repo.rooms, roomId, OrEmpty(password));
      if !passwordMatch {
        return Err(Failure(STATUS_UNAUTHORIZED, "Incorrect room password"));
      }
    }
    if IsUserInRoom(repo.rooms, playerId.value) {
      return Err(Failure(STATUS_BAD_REQUEST, "Player is already in another room"));
    }
    var updated := repo.AddPlayerToRoom(roomId, playerId.value);
    match updated {
      case Err(e) => r := Err(JoinFailure(e));
      case Ok(None) => r := Err(Failure(STATUS_INTERNAL_ERROR, "Failed to join room"));
      case Ok(Some(e)) => r := Ok(e);
    }
  }

  /** The guards of `POST /room/:roomId/leave`: a player id, an existing room,
      and the player listed in it. */
  function LeaveGuard(rooms: map<string, RoomRow>, roomId: string, playerId: Option<string>): (r: Option<Failure>)
    ensures !Truthy(playerId) ==> r == Some(Failure(STATUS_BAD_REQUEST, "playerId is required"))
    ensures Truthy(playerId) && roomId !in rooms ==> r == Some(Failure(STATUS_NOT_FOUND, "Room not found"))
    ensures Truthy(playerId) && roomId in rooms && playerId.value !in rooms[roomId].playerIds ==>
              r == Some(Failure(STATUS_BAD_REQUEST, "Player is not in this room"))
    ensures r.None? <==> Truthy(playerId) && IsUserInSpecificRoom(rooms, playerId.value, roomId)
  {
    if !Truthy(playerId) then Some(Failure(STATUS_BAD_REQUEST, "playerId is required"))
    else if roomId !in rooms then Some(Failure(STATUS_NOT_FOUND, "Room not found"))
    else if !IsUserInSpecificRoom(rooms, playerId.value, roomId) then Some(Failure(STATUS_BAD_REQUEST, "Player is not in this room"))
    else None
  }

  /** A leave that passes the guards removes somebody: the room is deleted or shrinks. */
  lemma LeaveShrinksRoom(rooms: map<string, RoomRow>, roomId: string, playerId: Option<string>)
    requires LeaveGuard(rooms, roomId, playerId).None?
    ensures var d := Rooms.RemovePlayerFromRoom(rooms[roomId], playerId.value);
            d.stored.None? || |d.stored.value.playerIds| < |rooms[roomId].playerIds|
  {
    RemoveAllShrinks(rooms[roomId].playerIds, playerId.value);
  }

  /** `POST /room/:roomId/leave`: `Ok(None)` when the room was deleted. */
  method LeaveRoute(repo: RoomRepository, roomId: string, playerId: Option<string>)
    returns (r: Result<Option<RoomEntity>, Failure>)
    requires repo.Valid()
    modifies repo
    ensures repo.Valid()
    ensures LeaveGuard(old(repo.rooms), roomId, playerId).Some? ==>
              r == Err(LeaveGuard(old(repo.rooms), roomId, playerId).value) && repo.rooms == old(repo.rooms)
    ensures LeaveGuard(old(repo.rooms), roomId, playerId).None? ==>
              var d := Rooms.RemovePlayerFromRoom(old(repo.rooms)[roomId], playerId.value);
              && r == Ok(d.returned)
              && repo.rooms == (if d.stored.Some? then old(repo.rooms)[roomId := d.stored.value]
                                else old(repo.rooms) - {roomId})
  {
    if !Truthy(playerId) {
      return Err(Failure(STATUS_BAD_REQUEST, "playerId is required"));
    }
    var room := FindRoomByRoomId(repo.rooms, roomId);
    if room.None? {
      return Err(Failure(STATUS_NOT_FOUND, "Room not found"));
    }
    if !IsUserInSpecificRoom(repo.rooms, playerId.value, roomId) {
      return Err(Failure(STATUS_BAD_REQUEST, "Player is not in this room"));
    }
    var updated := repo.RemovePlayerFromRoom(roomId, playerId.value);
    r := Ok(updated);
  }

  // ---------------------------------------------------------------------
  // Host-only actions

  /** The common guards of update, status and delete: a requester id, an
      existing room, and the requester being its host. */
  function HostGuard(rooms: map<string, RoomRow>, roomId: string, userId: Option<string>, denied: string): (r: Option<Failure>)
    ensures !Truthy(userId) ==> r == Some(Failure(STATUS_BAD_REQUEST, "userId is required for authorization"))
    ensures Truthy(userId) && roomId !in rooms ==> r == Some(Failure(STATUS_NOT_FOUND, "Room not found"))
    ensures Truthy(userId) && roomId in rooms && rooms[roomId].hostId != userId.value ==>
              r == Some(Failure(STATUS_FORBIDDEN, denied))
    ensures r.None? <==> Truthy(userId) && roomId in rooms && rooms[roomId].hostId == userId.value
  {
    if !Truthy(userId) then Some(Failure(STATUS_BAD_REQUEST, "userId is required for authorization"))
    else if roomId !in rooms then Some(Failure(STATUS_NOT_FOUND, "Room not found"))
    else if rooms[roomId].hostId != userId.value then Some(Failure(STATUS_FORBIDDEN, denied))
    else None
  }

  /** The guards of `PUT /room/:roomId`: the host guards, a new `roomId` not
      taken by another room, and a valid body. */
  function UpdateGuard(rooms: map<string, RoomRow>, roomId: string, body: RoomBody): (r: Option<Failure>)
    ensures HostGuard(rooms, roomId, body.userId, "Only room host can update room information").Some? ==>
              r == HostGuard(rooms, roomId, body.userId, "Only room host can update room information")
    ensures r.None? <==>
              && HostGuard(rooms, roomId, body.userId, "Only room host can update room information").None?
              && !(Truthy(body.roomId) && body.roomId.value != roomId && body.roomId.value in rooms)
              && RoomValidation(body).isValid
  {
    var host := HostGuard(rooms, roomId, body.userId, "Only room host can update room information");
    if host.Some? then host
    else if Truthy(body.roomId) && body.roomId.value != roomId && body.roomId.value in rooms then
      Some(Failure(STATUS_BAD_REQUEST, "New roomId already exists"))
    else if !RoomValidation(body).isValid then Some(Invalid(Messages(RoomValidation(body).errors)))
    else None
  }

  /** Only the host may update a room, and an update body must itself name a
      host, since it passes through the create validator. */
  lemma UpdateNeedsHostAndHostId(rooms: map<string, RoomRow>, roomId: string, body: RoomBody)
    requires UpdateGuard(rooms, roomId, body).None?
    ensures roomId in rooms && body.userId == Some(rooms[roomId].hostId)
    ensures Truthy(body.hostId)
  {
  }

  /** The host named in an update body need not be a player of the room. */
  lemma UpdateMayNameOutsideHost()
    ensures var rooms := map["R" := RoomRow("R", None, None, ["h"], "h", 4, true, false, None, "default", None, "{}")];
            var body := RoomBody(Some("x"), None, None, None, None, None, None, None, None, None, Some("h"), None);
            && UpdateGuard(rooms, "R", body).None?
            && ApplyRoomPatch(rooms["R"], RoomValidation(body).roomData).hostId !in rooms["R"].playerIds
  {
  }

  /** `PUT /room/:roomId`. */
  method UpdateRoute(repo: RoomRepository, roomId: string, body: RoomBody) returns (r: Result<RoomEntity, Failure>)
    requires repo.Valid()
    modifies repo
    ensures repo.Valid()
    ensures UpdateGuard(old(repo.rooms), roomId, body).Some? ==>
              r == Err(UpdateGuard(old(repo.rooms), roomId, body).value) && repo.rooms == old(repo.rooms)
    ensures UpdateGuard(old(repo.rooms), roomId, body).None? ==>
              && repo.rooms == old(repo.rooms)[roomId := ApplyRoomPatch(old(repo.rooms)[roomId], RoomValidation(body).roomData)]
              && r == Ok(MapToRoomEntity(repo.rooms[roomId]))
  {
    var host := HostGuard(repo.rooms, roomId, body.userId, "Only room host can update room information");
    if host.Some? {
      return Err(host.value);
    }
    if Truthy(body.roomId) && body.roomId.value != roomId {
      var existing := FindRoomByRoomId(repo.rooms, body.roomId.value);
      if existing.Some? {
        return Err(Failure(STATUS_BAD_REQUEST, "New roomId already exists"));
      }
    }
    var v := ValidateRoomData(body);
    if !v.isValid {
      return Err(Invalid(Messages(v.errors)));
    }
    var updated := repo.UpdateRoomByRoomId(roomId, v.roomData);
    if updated.None? {
      return Err(Failure(STATUS_INTERNAL_ERROR, "Failed to update room"));
    }
    r := Ok(updated.value);
  }

  /** The guards of `PATCH /room/:roomId/status`: a boolean `isUsing` (else
      `None`), then the host guards. */
  function StatusGuard(rooms: map<string, RoomRow>, roomId: string, isUsing: Option<bool>, userId: Option<string>): (r: Option<Failure>)
    ensures isUsing.None? ==> r == Some(Failure(STATUS_BAD_REQUEST, "isUsing must be a boolean"))
    ensures isUsing.Some? ==> r == HostGuard(rooms, roomId, userId, "Only room host can change room status")
  {
    if isUsing.None? then Some(Failure(STATUS_BAD_REQUEST, "isUsing must be a boolean"))
    else HostGuard(rooms, roomId, userId, "Only room host can change room status")
  }

  /** `PATCH /room/:roomId/status`: only `isUsing` changes. */
  method StatusRoute(repo: RoomRepository, roomId: string, isUsing: Option<bool>, userId: Option<string>)
    returns (r: Result<RoomEntity, Failure>)
    requires repo.Valid()
    modifies repo
    ensures repo.Valid()
    ensures StatusGuard(old(repo.rooms), roomId, isUsing, userId).Some? ==>
              r == Err(StatusGuard(old(repo.rooms), roomId, isUsing, userId).value) && repo.rooms == old(repo.rooms)
    ensures StatusGuard(old(repo.rooms), roomId, isUsing, userId).None? ==>
              && repo.rooms == old(repo.rooms)[roomId := old(repo.rooms)[roomId].(isUsing := isUsing.value)]
              && r == Ok(MapToRoomEntity(repo.rooms[roomId]))
  {
    if isUsing.None? {
      return Err(Failure(STATUS_BAD_REQUEST, "isUsing must be a boolean"));
    }
    var host := HostGuard(repo.rooms, roomId, userId, "Only room host can change room status");
    if host.Some? {
      return Err(host.value);
    }
    var updated := repo.UpdateRoomStatus(roomId, isUsing.value);
    if updated.None? {
      return Err(Failure(STATUS_INTERNAL_ERROR, "Failed to update room status"));
    }
    r := Ok(updated.value);
  }

  /** `DELETE /room/:roomId`: the id of the deleted room. */
  method DeleteRoute(repo: RoomRepository, roomId: string, userId: Option<string>) returns (r: Result<string, Failure>)
    requires repo.Valid()
    modifies repo
    ensures repo.Valid()
    ensures HostGuard(old(repo.rooms), roomId, userId, "Only room host can delete the room").Some? ==>
              && r == Err(HostGuard(old(repo.rooms), roomId, userId, "Only room host can delete the room").value)
              && repo.rooms == old(repo.rooms)
    ensures HostGuard(old(repo.rooms), roomId, userId, "Only room host can delete the room").None? ==>
              r == Ok(roomId) && repo.rooms == old(repo.rooms) - {roomId}
  {
    var host := HostGuard(repo.rooms, roomId, userId, "Only room host can delete the room");
    if host.Some? {
      return Err(host.value);
    }
    var deleted := repo.DeleteRoomByRoomId(roomId);
    if !deleted {
      return Err(Failure(STATUS_INTERNAL_ERROR, "Failed to delete room"));
    }
    r := Ok(roomId);
  }

  // ---------------------------------------------------------------------
  // Transfer host

  /** The guards of `POST /room/:roomId/transfer-host`: both ids, an existing
      room, the current host named correctly, and the new host a player. */
  function TransferGuard(rooms: map<string, RoomRow>, roomId: string, currentHostId: Option<string>, newHostId: Option<string>)
    : (r: Option<Failure>)
    ensures !Truthy(currentHostId) || !Truthy(newHostId) ==>
              r == Some(Failure(STATUS_BAD_REQUEST, "Both currentHostId and newHostId are required"))
    ensures Truthy(currentHostId) && Truthy(newHostId) && roomId !in rooms ==>
              r == Some(Failure(STATUS_NOT_FOUND, "Room not found"))
    ensures Truthy(currentHostId) && Truthy(newHostId) && roomId in rooms && rooms[roomId].hostId != currentHostId.value ==>
              r == Some(Failure(STATUS_BAD_REQUEST, "Current user is not the host"))
    ensures r.None? <==>
              && Truthy(currentHostId) && Truthy(newHostId) && roomId in rooms
              && rooms[roomId].hostId == currentHostId.value && newHostId.value in rooms[roomId].playerIds
  {
    if !Truthy(currentHostId) || !Truthy(newHostId) then
      Some(Failure(STATUS_BAD_REQUEST, "Both currentHostId and newHostId are required"))
    else if roomId !in rooms then Some(Failure(STATUS_NOT_FOUND, "Room not found"))
    else if rooms[roomId].hostId != currentHostId.value then Some(Failure(STATUS_BAD_REQUEST, "Current user is not the host"))
    else if newHostId.value !in rooms[roomId].playerIds then Some(Failure(STATUS_BAD_REQUEST, "New host is not in the room"))
    else None
  }

  /** `POST /room/:roomId/transfer-host`: only `hostId` changes, and the new
      host is one of the players. */
  method TransferHostRoute(repo: RoomRepository, roomId: string, currentHostId: Option<string>, newHostId: Option<string>)
    returns (r: Result<RoomEntity, Failure>)
    requires repo.Valid()
    modifies repo
    ensures repo.Valid()
    ensures TransferGuard(old(repo.rooms), roomId, currentHostId, newHostId).Some? ==>
              && r == Err(TransferGuard(old(repo.rooms), roomId, currentHostId, newHostId).value)
              && repo.rooms == old(repo.rooms)
    ensures TransferGuard(old(repo.rooms), roomId, currentHostId, newHostId).None? ==>
              && repo.rooms == old(repo.rooms)[roomId := old(repo.rooms)[roomId].(hostId := newHostId.value)]
              && repo.rooms[roomId].hostId in repo.rooms[roomId].playerIds
              && r == Ok(MapToRoomEntity(repo.rooms[roomId]))
  {
    if !Truthy(currentHostId) || !Truthy(newHostId) {
      return Err(Failure(STATUS_BAD_REQUEST, "Both currentHostId and newHostId are required"));
    }
    var room := FindRoomByRoomId(repo.rooms, roomId);
    if room.None? {
      return Err(Failure(STATUS_NOT_FOUND, "Room not found"));
    }
    if room.value.hostId != currentHostId.value {
      return Err(Failure(STATUS_BAD_REQUEST, "Current user is not the host"));
    }
    if newHostId.value !in room.value.playerIds {
      return Err(Failure(STATUS_BAD_REQUEST, "New host is not in the room"));
    }
    var updated := repo.UpdateRoomByRoomId(roomId, NoRoomChange.(hostId := newHostId));
    if updated.None? {
      return Err(Failure(STATUS_INTERNAL_ERROR, "Failed to transfer host"));
    }
    r := Ok(updated.value);
  }
}
