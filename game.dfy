/** The game-session engine of backend/src/repository/game.repository.ts: the
    stored game record, the update each repository operation computes for it,
    and the rules those updates follow (status machine, turn rotation, the
    three player lists, the draw pile and the used pile).

    Every operation reads one stored record and computes a partial update
    (`Partial<Game>` in the source), written here as a `GamePatch`; the store
    itself lives in `GameStore.GameRepository`. */
module Games {
  import opened Common
  import opened Decks

  datatype GameStatus = WAITING | ACTIVE | FINISHED

  /** A stored game (backend/src/model/Game.ts).  `activeDeck` is the draw pile,
      `inActiveDeck` the used pile, `turnCicleClock` the direction of play. */
  datatype Game = Game(
    gameId: string,
    roomId: string,
    activeDeck: seq<string>,
    inActiveDeck: seq<string>,
    turnCicleClock: bool,
    currentPlayerId: string,
    activePlayerIds: seq<string>,
    inActivePlayerIds: seq<string>,
    observerPlayerIds: seq<string>,
    gameMode: string,
    status: GameStatus)

  /** The fields a caller may leave out when creating a game.  A `currentPlayerId`
      of "" counts as missing, as `||` treats it. */
  datatype NewGame = NewGame(
    roomId: string,
    activeDeck: Option<seq<string>>,
    inActiveDeck: Option<seq<string>>,
    turnCicleClock: Option<bool>,
    currentPlayerId: Option<string>,
    activePlayerIds: seq<string>,
    inActivePlayerIds: Option<seq<string>>,
    observerPlayerIds: Option<seq<string>>,
    gameMode: string,
    status: Option<GameStatus>)

  /** A partial update of the mutable fields of a game. */
  datatype GamePatch = GamePatch(
    activeDeck: Option<seq<string>>,
    inActiveDeck: Option<seq<string>>,
    turnCicleClock: Option<bool>,
    currentPlayerId: Option<string>,
    activePlayerIds: Option<seq<string>>,
    inActivePlayerIds: Option<seq<string>>,
    observerPlayerIds: Option<seq<string>>,
    status: Option<GameStatus>)

  const NoChange: GamePatch := GamePatch(None, None, None, None, None, None, None, None)

  datatype Role = ActiveRole | ObserverRole

  /** The errors the repository operations throw. */
  datatype GameError =
    | NonActiveGame
    | PlayerNotActive
    | CannotStart(status: GameStatus)
    | NotEnoughPlayers
    | CannotJoinAsPlayer
    | GameFull(maxPlayers: int)
    | DuplicateGameId

  // ---------------------------------------------------------------------
  // Creation and updates

  /** `createGame`: the record stored for `n` under the generated id `gameId`. */
  function CreateGame(n: NewGame, gameId: string): (g: Game)
    ensures g.gameId == gameId && g.roomId == n.roomId && g.gameMode == n.gameMode
    ensures g.activePlayerIds == n.activePlayerIds
    ensures n.status.None? ==> g.status == WAITING
    ensures n.status.Some? ==> g.status == n.status.value
    ensures g.turnCicleClock <==> n.turnCicleClock != Some(false)
    ensures n.currentPlayerId.Some? && n.currentPlayerId.value != "" ==> g.currentPlayerId == n.currentPlayerId.value
    ensures (n.currentPlayerId.None? || n.currentPlayerId.value == "") && n.activePlayerIds != [] ==>
              g.currentPlayerId == n.activePlayerIds[0]
    ensures (n.currentPlayerId.None? || n.currentPlayerId.value == "") && n.activePlayerIds == [] ==>
              g.currentPlayerId == ""
    ensures n.activeDeck.None? ==> g.activeDeck == []
    ensures n.inActiveDeck.None? ==> g.inActiveDeck == []
    ensures n.inActivePlayerIds.None? ==> g.inActivePlayerIds == []
    ensures n.observerPlayerIds.None? ==> g.observerPlayerIds == []
    ensures n.activeDeck.Some? ==> g.activeDeck == n.activeDeck.value
    ensures n.inActiveDeck.Some? ==> g.inActiveDeck == n.inActiveDeck.value
    ensures n.inActivePlayerIds.Some? ==> g.inActivePlayerIds == n.inActivePlayerIds.value
    ensures n.observerPlayerIds.Some? ==> g.observerPlayerIds == n.observerPlayerIds.value
  {
    var defaultCurrent := if |n.activePlayerIds| > 0 then n.activePlayerIds[0] else "";
    var current := if n.currentPlayerId.Some? && n.currentPlayerId.value != "" then n.currentPlayerId.value else defaultCurrent;
    Game(gameId, n.roomId, GetOr(n.activeDeck, []), GetOr(n.inActiveDeck, []), GetOr(n.turnCicleClock, true),
         current, n.activePlayerIds, GetOr(n.inActivePlayerIds, []), GetOr(n.observerPlayerIds, []),
         n.gameMode, GetOr(n.status, WAITING))
  }

  /** The record after an update that writes every field present in `p`. */
  function ApplyGamePatch(g: Game, p: GamePatch): (r: Game)
    ensures r.gameId == g.gameId && r.roomId == g.roomId && r.gameMode == g.gameMode
    ensures p.activeDeck.Some? ==> r.activeDeck == p.activeDeck.value
    ensures p.activeDeck.None? ==> r.activeDeck == g.activeDeck
    ensures p.inActiveDeck.Some? ==> r.inActiveDeck == p.inActiveDeck.value
    ensures p.inActiveDeck.None? ==> r.inActiveDeck == g.inActiveDeck
    ensures p.turnCicleClock.Some? ==> r.turnCicleClock == p.turnCicleClock.value
    ensures p.turnCicleClock.None? ==> r.turnCicleClock == g.turnCicleClock
    ensures p.currentPlayerId.Some? ==> r.currentPlayerId == p.currentPlayerId.value
    ensures p.currentPlayerId.None? ==> r.currentPlayerId == g.currentPlayerId
    ensures p.activePlayerIds.Some? ==> r.activePlayerIds == p.activePlayerIds.value
    ensures p.activePlayerIds.None? ==> r.activePlayerIds == g.activePlayerIds
    ensures p.inActivePlayerIds.Some? ==> r.inActivePlayerIds == p.inActivePlayerIds.value
    ensures p.inActivePlayerIds.None? ==> r.inActivePlayerIds == g.inActivePlayerIds
    ensures p.observerPlayerIds.Some? ==> r.observerPlayerIds == p.observerPlayerIds.value
    ensures p.observerPlayerIds.None? ==> r.observerPlayerIds == g.observerPlayerIds
    ensures p.status.Some? ==> r.status == p.status.value
    ensures p.status.None? ==> r.status == g.status
  {
    Game(g.gameId, g.roomId,
         GetOr(p.activeDeck, g.activeDeck), GetOr(p.inActiveDeck, g.inActiveDeck),
         GetOr(p.turnCicleClock, g.turnCicleClock), GetOr(p.currentPlayerId, g.currentPlayerId),
         GetOr(p.activePlayerIds, g.activePlayerIds), GetOr(p.inActivePlayerIds, g.inActivePlayerIds),
         GetOr(p.observerPlayerIds, g.observerPlayerIds), g.gameMode, GetOr(p.status, g.status))
  }

  /** An empty update leaves the record alone, and writing the same update twice
      is writing it once. */
  lemma PatchLaws(g: Game, p: GamePatch)
    ensures ApplyGamePatch(g, NoChange) == g
    ensures ApplyGamePatch(ApplyGamePatch(g, p), p) == ApplyGamePatch(g, p)
  {
  }

  /** `updateGame` as written: of all the fields of the update only
      `currentPlayerId` reaches the store. */
  function UpdateGameAsWritten(g: Game, p: GamePatch): (r: Game)
    ensures r == ApplyGamePatch(g, NoChange.(currentPlayerId := p.currentPlayerId))
  {
    if p.currentPlayerId.Some? then g.(currentPlayerId := p.currentPlayerId.value) else g
  }

  // ---------------------------------------------------------------------
  // Status machine

  /** `startGame`: only a WAITING game with at least two active players starts. */
  function StartGame(g: Game): (r: Result<GamePatch, GameError>)
    ensures r.Ok? <==> g.status == WAITING && |g.activePlayerIds| >= 2
    ensures g.status != WAITING ==> r == Err(CannotStart(g.status))
    ensures g.status == WAITING && |g.activePlayerIds| < 2 ==> r == Err(NotEnoughPlayers)
    ensures r.Ok? ==> ApplyGamePatch(g, r.value) == g.(status := ACTIVE)
  {
    if g.status != WAITING then Err(CannotStart(g.status))
    else if |g.activePlayerIds| < 2 then Err(NotEnoughPlayers)
    else Ok(NoChange.(status := Some(ACTIVE)))
  }

  /** `finishGame`: FINISHED from any status.  The winner is only logged. */
  function FinishGame(g: Game, winnerId: Option<string>): (p: GamePatch)
    ensures ApplyGamePatch(g, p) == g.(status := FINISHED)
  {
    NoChange.(status := Some(FINISHED))
  }

  /** Through the `updateGame` stub a successful start is lost: the stored
      game stays WAITING, while the requested update makes it ACTIVE. */
  lemma StartGameLostAsWritten(g: Game)
    requires StartGame(g).Ok?
    ensures UpdateGameAsWritten(g, StartGame(g).value) == g
    ensures UpdateGameAsWritten(g, StartGame(g).value).status == WAITING
    ensures ApplyGamePatch(g, StartGame(g).value).status == ACTIVE
  {
  }

  /** Likewise a finish: the stub leaves the status as it was. */
  lemma FinishGameLostAsWritten(g: Game, winnerId: Option<string>)
    requires g.status != FINISHED
    ensures UpdateGameAsWritten(g, FinishGame(g, winnerId)).status != FINISHED
    ensures ApplyGamePatch(g, FinishGame(g, winnerId)).status == FINISHED
  {
  }

  // ---------------------------------------------------------------------
  // Turn rotation

  /** The player after `current` in `active`, in the direction of play; the
      first active player when `current` is not active. */
  function NextPlayerId(active: seq<string>, current: string, clockwise: bool): (next: string)
    requires |active| > 0
    ensures next in active
    ensures current !in active ==> next == active[0]
    ensures current in active && clockwise ==>
              next == active[(IndexOf(active, current) + 1) % |active|]
    ensures current in active && !clockwise ==>
              next == active[(IndexOf(active, current) - 1 + |active|) % |active|]
  {
    var n := |active|;
    var i := IndexOf(active, current);
    if i == -1 then active[0]
    else if clockwise then active[(i + 1) % n]
    else active[(i - 1 + n) % n]
  }

  /** `moveToNextPlayer`. */
  function MoveToNextPlayer(g: Game): (r: Result<GamePatch, GameError>)
    ensures r.Err? <==> g.status != ACTIVE
    ensures r.Err? ==> r.error == NonActiveGame
    ensures r.Ok? && g.activePlayerIds == [] ==> r.value == NoChange
    ensures r.Ok? && g.activePlayerIds != [] ==>
              ApplyGamePatch(g, r.value) == g.(currentPlayerId := ApplyGamePatch(g, r.value).currentPlayerId)
              && ApplyGamePatch(g, r.value).currentPlayerId in g.activePlayerIds
              && ApplyGamePatch(g, r.value).currentPlayerId ==
                   NextPlayerId(g.activePlayerIds, g.currentPlayerId, g.turnCicleClock)
  {
    if g.status != ACTIVE then Err(NonActiveGame)
    else if |g.activePlayerIds| == 0 then Ok(NoChange)
    else Ok(NoChange.(currentPlayerId := Some(NextPlayerId(g.activePlayerIds, g.currentPlayerId, g.turnCicleClock))))
  }

  /** `setCurrentPlayer`: the membership check comes before the status check. */
  function SetCurrentPlayer(g: Game, playerId: string): (r: Result<GamePatch, GameError>)
    ensures r.Ok? <==> playerId in g.activePlayerIds && g.status == ACTIVE
    ensures playerId !in g.activePlayerIds ==> r == Err(PlayerNotActive)
    ensures playerId in g.activePlayerIds && g.status != ACTIVE ==> r == Err(NonActiveGame)
    ensures r.Ok? ==> ApplyGamePatch(g, r.value) == g.(currentPlayerId := playerId)
  {
    if playerId !in g.activePlayerIds then Err(PlayerNotActive)
    else if g.status != ACTIVE then Err(NonActiveGame)
    else Ok(NoChange.(currentPlayerId := Some(playerId)))
  }

  /** `reverseTurnCycle`: flip the direction of an ACTIVE game. */
  function ReverseTurnCycle(g: Game): (r: Result<GamePatch, GameError>)
    ensures r.Ok? <==> g.status == ACTIVE
    ensures r.Err? ==> r.error == NonActiveGame
    ensures r.Ok? ==> ApplyGamePatch(g, r.value) == g.(turnCicleClock := !g.turnCicleClock)
  {
    if g.status != ACTIVE then Err(NonActiveGame)
    else Ok(NoChange.(turnCicleClock := Some(!g.turnCicleClock)))
  }

  /** The index after `i` in a ring of `n`: `(i + 1) % n`. */
  lemma NextIndex(i: int, n: int)
    requires 0 <= i < n
    ensures (i + 1) % n == if i + 1 < n then i + 1 else 0
  {
  }

  /** The index before `i` in a ring of `n`: `(i - 1 + n) % n`. */
  lemma PrevIndex(i: int, n: int)
    requires 0 <= i < n
    ensures (i - 1 + n) % n == if i > 0 then i - 1 else n - 1
  {
  }

  /** One step forwards and one step backwards lead back to the same player,
      whenever the active list has no repeats. */
  lemma StepThenStepBack(active: seq<string>, current: string, clockwise: bool)
    requires NoDup(active) && current in active
    ensures NextPlayerId(active, NextPlayerId(active, current, clockwise), !clockwise) == current
  {
    var n := |active|;
    var i := IndexOf(active, current);
    NextIndex(i, n);
    PrevIndex(i, n);
    var j := if clockwise then (i + 1) % n else (i - 1 + n) % n;
    IndexOfNoDup(active, j);
    NextIndex(j, n);
    PrevIndex(j, n);
  }

  /** The state after advancing the turn, reversing the direction and advancing
      again (an Uno "Reverse" played right after a turn change). */
  function AdvanceReverseAdvance(g: Game): Result<Game, GameError> {
    match MoveToNextPlayer(g)
    case Err(e) => Err(e)
    case Ok(p1) =>
      var g1 := ApplyGamePatch(g, p1);
      match ReverseTurnCycle(g1)
      case Err(e) => Err(e)
      case Ok(p2) =>
        var g2 := ApplyGamePatch(g1, p2);
        match MoveToNextPlayer(g2)
        case Err(e) => Err(e)
        case Ok(p3) => Ok(ApplyGamePatch(g2, p3))
  }

  /** Reversing right after a turn change hands the turn back to the player who
      just had it, and leaves play running the other way. */
  lemma ReverseHandsTurnBack(g: Game)
    requires g.status == ACTIVE && NoDup(g.activePlayerIds) && g.currentPlayerId in g.activePlayerIds
    ensures AdvanceReverseAdvance(g).Ok?
    ensures AdvanceReverseAdvance(g).value == g.(turnCicleClock := !g.turnCicleClock)
  {
    StepThenStepBack(g.activePlayerIds, g.currentPlayerId, g.turnCicleClock);
  }

  /** `moveToNextPlayer` applied `k` times in a row, each update stored before the next. */
  function AdvanceTurns(g: Game, k: nat): Game
    decreases k
  {
    if k == 0 then g
    else match MoveToNextPlayer(g)
      case Err(_) => g
      case Ok(p) => AdvanceTurns(ApplyGamePatch(g, p), k - 1)
  }

  /** Turn order: from the player at index `i`, `k` turn changes of an ACTIVE
      game reach the player at index `i + k` (clockwise) or `i - k`
      (counterclockwise), modulo the number of active players. */
  /** The index of the player after the one at `i`, without `%`. */
  function RingNext(i: nat, n: nat, clockwise: bool): nat
    requires i < n
  {
    if clockwise then (if i + 1 < n then i + 1 else 0)
    else (if i > 0 then i - 1 else n - 1)
  }

  /** The index `k` turns after index `i` in a ring of `n`, in the given direction. */
  function TurnIndex(i: int, k: int, n: int, clockwise: bool): (j: int)
    requires n > 0
    ensures 0 <= j < n
  {
    if clockwise then (i + k) % n else (i - k) % n
  }

  /** Stepping once and then `k - 1` more times is stepping `k` times. */
  lemma RingNextMod(i: nat, n: nat, k: nat, clockwise: bool)
    requires i < n && k >= 1
    ensures TurnIndex(RingNext(i, n, clockwise), k - 1, n, clockwise) == TurnIndex(i, k, n, clockwise)
  {
    if i + 1 == n {
      ModPlus(k - 1, n);
    }
    if i == 0 {
      ModPlus(-(k as int), n);
    }
  }

  /** One turn change when the current player sits at index `i` of a repeat-free list. */
  lemma OneTurn(g: Game, i: nat)
    requires g.status == ACTIVE && NoDup(g.activePlayerIds)
    requires i < |g.activePlayerIds| && g.currentPlayerId == g.activePlayerIds[i]
    ensures MoveToNextPlayer(g).Ok?
    ensures ApplyGamePatch(g, MoveToNextPlayer(g).value) ==
              g.(currentPlayerId := g.activePlayerIds[RingNext(i, |g.activePlayerIds|, g.turnCicleClock)])
  {
    IndexOfNoDup(g.activePlayerIds, i);
    NextIndex(i, |g.activePlayerIds|);
    PrevIndex(i, |g.activePlayerIds|);
  }

  /** Turn order: from the player at index `i`, `k` turn changes of an ACTIVE
      game reach the player at index `i + k` (clockwise) or `i - k`
      (counterclockwise), modulo the number of active players, and change
      nothing else. */
  lemma {:induction false} TurnsRotate(g: Game, i: nat, k: nat)
    requires g.status == ACTIVE && NoDup(g.activePlayerIds)
    requires i < |g.activePlayerIds| && g.currentPlayerId == g.activePlayerIds[i]
    decreases k
    ensures AdvanceTurns(g, k) ==
              g.(currentPlayerId := g.activePlayerIds[TurnIndex(i, k, |g.activePlayerIds|, g.turnCicleClock)])
  {
    var n := |g.activePlayerIds|;
    if k == 0 {
      ModUnique(i, 0, i, n);
    } else {
      OneTurn(g, i);
      var i1 := RingNext(i, n, g.turnCicleClock);
      var g1 := g.(currentPlayerId := g.activePlayerIds[i1]);
      assert AdvanceTurns(g, k) == AdvanceTurns(g1, k - 1);
      TurnsRotate(g1, i1, k - 1);
      RingNextMod(i, n, k, g.turnCicleClock);
    }
  }

  // ---------------------------------------------------------------------
  // The three player lists

  /** `getMaxPlayersForGameMode` looks the lower-cased mode up in an object
      literal. Besides its own keys, the literal inherits the members of
      `Object.prototype`; the lower-case ones are `constructor` and
      `__proto__`. Both are truthy objects, so `|| maxPlayersMap.default` keeps
      them, and a numeric comparison with either is a comparison with NaN. */
  datatype Ceiling = Limit(n: int) | Inherited

  const MaxPlayersTable: map<string, int> :=
    map["poker" := 9, "blackjack" := 7, "uno" := 10, "rummy" := 6, "default" := 4]

  const InheritedKeys: set<string> := {"constructor", "__proto__"}

  function MaxPlayersForGameMode(gameMode: string): (r: Ceiling)
    ensures r.Inherited? <==> ToLower(gameMode) in InheritedKeys
    ensures r.Limit? ==> 4 <= r.n <= 10
    ensures ToLower(gameMode) == "poker" ==> r == Limit(9)
    ensures ToLower(gameMode) == "blackjack" ==> r == Limit(7)
    ensures ToLower(gameMode) == "uno" ==> r == Limit(10)
    ensures ToLower(gameMode) == "rummy" ==> r == Limit(6)
    ensures ToLower(gameMode) == "default" ==> r == Limit(4)
    ensures ToLower(gameMode) !in MaxPlayersTable && ToLower(gameMode) !in InheritedKeys ==> r == Limit(4)
  {
    var key := ToLower(gameMode);
    if key in InheritedKeys then Inherited
    else if key in MaxPlayersTable && MaxPlayersTable[key] != 0 then Limit(MaxPlayersTable[key])
    else Limit(MaxPlayersTable["default"])
  }

  /** `count >= ceiling`; false when the ceiling is NaN. */
  predicate AtCeiling(count: int, c: Ceiling) {
    c.Limit? && count >= c.n
  }

  /** `count < ceiling`; false when the ceiling is NaN. */
  predicate BelowCeiling(count: int, c: Ceiling) {
    c.Limit? && count < c.n
  }

  /** The ceiling does not depend on the letter case of the mode. */
  lemma MaxPlayersIgnoresCase(gameMode: string)
    ensures MaxPlayersForGameMode(ToLower(gameMode)) == MaxPlayersForGameMode(gameMode)
  {
    ToLowerIdempotent(gameMode);
  }

  /** `addPlayerToGame`. */
  function AddPlayerToGame(g: Game, playerId: string, role: Role): (r: Result<GamePatch, GameError>)
    ensures role == ActiveRole && g.status != WAITING ==> r == Err(CannotJoinAsPlayer)
    ensures role == ActiveRole && g.status == WAITING && playerId in g.activePlayerIds ==> r == Ok(NoChange)
    ensures role == ActiveRole && g.status == WAITING && playerId !in g.activePlayerIds ==>
              (r.Err? <==> AtCeiling(|g.activePlayerIds|, MaxPlayersForGameMode(g.gameMode)))
              && (r.Err? ==> r.error == GameFull(MaxPlayersForGameMode(g.gameMode).n))
              && (r.Ok? ==> ApplyGamePatch(g, r.value) == g.(activePlayerIds := g.activePlayerIds + [playerId],
                                                                inActivePlayerIds := RemoveAll(g.inActivePlayerIds, playerId),
                                                                observerPlayerIds := RemoveAll(g.observerPlayerIds, playerId)))
    ensures role == ObserverRole ==> r.Ok?
    ensures role == ObserverRole && playerId in g.observerPlayerIds ==> r.value == NoChange
    ensures role == ObserverRole && playerId !in g.observerPlayerIds ==>
              ApplyGamePatch(g, r.value) == g.(observerPlayerIds := g.observerPlayerIds + [playerId])
  {
    if g.status != WAITING && role == ActiveRole then Err(CannotJoinAsPlayer)
    else if role == ActiveRole then
      if playerId in g.activePlayerIds then Ok(NoChange)
      else
        var maxPlayers := MaxPlayersForGameMode(g.gameMode);
        if AtCeiling(|g.activePlayerIds|, maxPlayers) then Err(GameFull(maxPlayers.n))
        else Ok(NoChange.(activePlayerIds := Some(g.activePlayerIds + [playerId]),
                          inActivePlayerIds := Some(RemoveAll(g.inActivePlayerIds, playerId)),
                          observerPlayerIds := Some(RemoveAll(g.observerPlayerIds, playerId))))
    else if playerId in g.observerPlayerIds then Ok(NoChange)
    else Ok(NoChange.(observerPlayerIds := Some(g.observerPlayerIds + [playerId])))
  }

  /** `movePlayerToInactive`: a player who loses moves from the active list to the end of the inactive list. */
  function MovePlayerToInactive(g: Game, playerId: string): (r: Result<GamePatch, GameError>)
    ensures r.Err? <==> g.status != ACTIVE
    ensures r.Err? ==> r.error == NonActiveGame
    ensures r.Ok? && playerId !in g.activePlayerIds ==> r.value == NoChange
    ensures r.Ok? && playerId in g.activePlayerIds ==>
              ApplyGamePatch(g, r.value) == g.(activePlayerIds := RemoveAll(g.activePlayerIds, playerId),
                                               inActivePlayerIds := g.inActivePlayerIds + [playerId])
  {
    if g.status != ACTIVE then Err(NonActiveGame)
    else if playerId !in g.activePlayerIds then Ok(NoChange)
    else Ok(NoChange.(activePlayerIds := Some(RemoveAll(g.activePlayerIds, playerId)),
                      inActivePlayerIds := Some(g.inActivePlayerIds + [playerId])))
  }

  ghost predicate Disjoint(a: seq<string>, b: seq<string>) {
    forall x :: x in a ==> x !in b
  }

  /** Each player list is free of repeats and no player is on two lists. */
  ghost predicate WellFormedPlayers(g: Game) {
    && NoDup(g.activePlayerIds) && NoDup(g.inActivePlayerIds) && NoDup(g.observerPlayerIds)
    && Disjoint(g.activePlayerIds, g.inActivePlayerIds)
    && Disjoint(g.activePlayerIds, g.observerPlayerIds)
    && Disjoint(g.inActivePlayerIds, g.observerPlayerIds)
  }

  /** Joining as an active player keeps the player lists well formed. */
  lemma AddActivePreservesWellFormed(g: Game, playerId: string)
    requires WellFormedPlayers(g) && AddPlayerToGame(g, playerId, ActiveRole).Ok?
    ensures WellFormedPlayers(ApplyGamePatch(g, AddPlayerToGame(g, playerId, ActiveRole).value))
  {
    if playerId !in g.activePlayerIds {
      AppendFreshNoDup(g.activePlayerIds, playerId);
      RemoveAllNoDup(g.inActivePlayerIds, playerId);
      RemoveAllNoDup(g.observerPlayerIds, playerId);
    }
  }

  /** Moving a player to the inactive list keeps the player lists well formed. */
  lemma MoveToInactivePreservesWellFormed(g: Game, playerId: string)
    requires WellFormedPlayers(g) && MovePlayerToInactive(g, playerId).Ok?
    ensures WellFormedPlayers(ApplyGamePatch(g, MovePlayerToInactive(g, playerId).value))
  {
    if playerId in g.activePlayerIds {
      RemoveAllNoDup(g.activePlayerIds, playerId);
      AppendFreshNoDup(g.inActivePlayerIds, playerId);
    }
  }

  /** Joining as an observer leaves the player on the active list too: the
      lists stop being disjoint. */
  lemma ObserverJoinCanBreakDisjointness()
    ensures var g := Game("G", "R", [], [], true, "P1", ["P1", "P2"], [], [], "uno", ACTIVE);
            && WellFormedPlayers(g)
            && AddPlayerToGame(g, "P1", ObserverRole).Ok?
            && !WellFormedPlayers(ApplyGamePatch(g, AddPlayerToGame(g, "P1", ObserverRole).value))
  {
    var g := Game("G", "R", [], [], true, "P1", ["P1", "P2"], [], [], "uno", ACTIVE);
    var g' := ApplyGamePatch(g, AddPlayerToGame(g, "P1", ObserverRole).value);
    assert g'.observerPlayerIds == ["P1"];
    assert "P1" in g'.activePlayerIds;
  }

  /** The player is on one of the three lists of the game. */
  predicate InGame(g: Game, playerId: string) {
    playerId in g.activePlayerIds || playerId in g.inActivePlayerIds || playerId in g.observerPlayerIds
  }

  /** After a successful join, in either role, the player is in the game; and
      nobody who was in the game before leaves it. */
  lemma JoinKeepsEveryone(g: Game, playerId: string, role: Role, other: string)
    requires AddPlayerToGame(g, playerId, role).Ok?
    ensures InGame(ApplyGamePatch(g, AddPlayerToGame(g, playerId, role).value), playerId)
    ensures InGame(g, other) ==> InGame(ApplyGamePatch(g, AddPlayerToGame(g, playerId, role).value), other)
  {
  }

  /** Losing moves a player between lists but never out of the game. */
  lemma MoveToInactiveKeepsEveryone(g: Game, playerId: string, other: string)
    requires MovePlayerToInactive(g, playerId).Ok?
    ensures InGame(g, other) <==> InGame(ApplyGamePatch(g, MovePlayerToInactive(g, playerId).value), other)
  {
  }

  /** A FINISHED game accepts no turn, player or card operation except a new observer. */
  lemma FinishedGameIsFinal(g: Game, playerId: string, count: int, rs: seq<real>)
    requires g.status == FINISHED
    requires |g.inActiveDeck| <= |rs| + 1 && AllDraws(rs)
    ensures StartGame(g).Err? && MoveToNextPlayer(g).Err? && SetCurrentPlayer(g, playerId).Err?
    ensures ReverseTurnCycle(g).Err? && MovePlayerToInactive(g, playerId).Err?
    ensures AddPlayerToGame(g, playerId, ActiveRole).Err? && DrawCard(g, count, rs).Err?
  {
  }

  // ---------------------------------------------------------------------
  // Cards

  /** The cards a draw hands out and the update it stores. */
  datatype Drawn = Drawn(cards: seq<string>, patch: GamePatch)

  /** `drawCard`: take `count` cards from the top of the draw pile.  When the
      draw pile is empty, the used pile is shuffled (with the draws `rs`), the
      cards are taken from it and the rest becomes the draw pile; the used pile
      is emptied and the cards handed out are in neither pile afterwards. */
  function DrawCard(g: Game, count: int, rs: seq<real>): (r: Result<Drawn, GameError>)
    requires |g.inActiveDeck| <= |rs| + 1 && AllDraws(rs)
    ensures r.Err? <==> g.status != ACTIVE
    ensures r.Err? ==> r.error == NonActiveGame
    ensures r.Ok? ==> var g' := ApplyGamePatch(g, r.value.patch);
              g' == g.(activeDeck := g'.activeDeck, inActiveDeck := g'.inActiveDeck)
    ensures r.Ok? && g.activeDeck != [] ==> var g' := ApplyGamePatch(g, r.value.patch);
              && r.value.cards + g'.activeDeck == g.activeDeck
              && g'.inActiveDeck == g.inActiveDeck + r.value.cards
              && (count >= 0 ==> |r.value.cards| == Min(count, |g.activeDeck|))
    ensures r.Ok? && g.activeDeck == [] ==> var g' := ApplyGamePatch(g, r.value.patch);
              && r.value.cards + g'.activeDeck == Shuffled(g.inActiveDeck, rs)
              && multiset(r.value.cards + g'.activeDeck) == multiset(g.inActiveDeck)
              && g'.inActiveDeck == []
              && (count >= 0 ==> |r.value.cards| == Min(count, |g.inActiveDeck|))
  {
    if g.status != ACTIVE then Err(NonActiveGame)
    else if |g.activeDeck| == 0 then
      var shuffled := Shuffled(g.inActiveDeck, rs);
      SplitAtCount(shuffled, count);
      var drawn := JsSlice(shuffled, 0, Min(count, |shuffled|));
      var remaining := JsSlice(shuffled, count, |shuffled|);
      Ok(Drawn(drawn, NoChange.(activeDeck := Some(remaining), inActiveDeck := Some([]))))
    else
      SplitAtCount(g.activeDeck, count);
      var drawn := JsSlice(g.activeDeck, 0, Min(count, |g.activeDeck|));
      var remaining := JsSlice(g.activeDeck, count, |g.activeDeck|);
      Ok(Drawn(drawn, NoChange.(activeDeck := Some(remaining), inActiveDeck := Some(g.inActiveDeck + drawn))))
  }

  /** Card accounting: a draw from a non-empty pile keeps every card of the game
      in one of the two piles; a draw that reshuffles takes the cards handed out
      out of the game's piles altogether. */
  lemma DrawCardAccounting(g: Game, count: int, rs: seq<real>)
    requires g.status == ACTIVE && |g.inActiveDeck| <= |rs| + 1 && AllDraws(rs)
    ensures var d := DrawCard(g, count, rs).value;
            var g' := ApplyGamePatch(g, d.patch);
            && (g.activeDeck != [] ==>
                  multiset(g'.activeDeck + g'.inActiveDeck) == multiset(g.activeDeck + g.inActiveDeck))
            && (g.activeDeck == [] ==>
                  multiset(g'.activeDeck + g'.inActiveDeck) + multiset(d.cards) == multiset(g.activeDeck + g.inActiveDeck))
  {
    var d := DrawCard(g, count, rs).value;
    var g' := ApplyGamePatch(g, d.patch);
    if g.activeDeck != [] {
      calc {
        multiset(g'.activeDeck + g'.inActiveDeck);
        multiset(g'.activeDeck) + multiset(g.inActiveDeck) + multiset(d.cards);
        multiset(d.cards + g'.activeDeck) + multiset(g.inActiveDeck);
        { assert d.cards + g'.activeDeck == g.activeDeck; }
        multiset(g.activeDeck + g.inActiveDeck);
      }
    } else {
      assert g'.inActiveDeck == [];
      assert g'.activeDeck + g'.inActiveDeck == g'.activeDeck;
      assert multiset(d.cards + g'.activeDeck) == multiset(g.inActiveDeck);
      assert g.activeDeck + g.inActiveDeck == g.inActiveDeck;
    }
  }

  /** The reshuffle branch loses the drawn cards: one card in the used pile,
      drawn from an empty draw pile, is handed out and then the game holds no
      card at all. */
  lemma ReshuffleDropsDrawnCards(rs: seq<real>)
    requires AllDraws(rs)
    ensures var g := Game("G", "R", [], ["A♥"], true, "P1", ["P1", "P2"], [], [], "poker", ACTIVE);
            var d := DrawCard(g, 1, rs).value;
            var g' := ApplyGamePatch(g, d.patch);
            d.cards == ["A♥"] && g'.activeDeck == [] && g'.inActiveDeck == []
  {
    var g := Game("G", "R", [], ["A♥"], true, "P1", ["P1", "P2"], [], [], "poker", ACTIVE);
    var d := DrawCard(g, 1, rs).value;
    var g' := ApplyGamePatch(g, d.patch);
    assert Shuffled(["A♥"], rs) == ["A♥"];
    assert |d.cards| == 1;
  }

  // ---------------------------------------------------------------------
  // Summary

  datatype GameSummary = GameSummary(
    gameId: string,
    roomId: string,
    gameMode: string,
    status: GameStatus,
    activePlayersCount: nat,
    inactivePlayersCount: nat,
    observersCount: nat,
    activeDeckCount: nat,
    inactiveDeckCount: nat,
    turnCycle: string,
    isGameOver: bool,
    canStart: bool,
    canJoin: bool)

  /** `getGameSummary`: the counts of a game and what may happen to it next. */
  function GetGameSummary(g: Game): (s: GameSummary)
    ensures s.activePlayersCount == |g.activePlayerIds| && s.inactivePlayersCount == |g.inActivePlayerIds|
    ensures s.observersCount == |g.observerPlayerIds|
    ensures s.activeDeckCount == |g.activeDeck| && s.inactiveDeckCount == |g.inActiveDeck|
    ensures s.turnCycle == (if g.turnCicleClock then "clockwise" else "counterclockwise")
    ensures s.isGameOver <==> g.status == FINISHED
    ensures s.canStart <==> StartGame(g).Ok?
  {
    GameSummary(g.gameId, g.roomId, g.gameMode, g.status,
                |g.activePlayerIds|, |g.inActivePlayerIds|, |g.observerPlayerIds|,
                |g.activeDeck|, |g.inActiveDeck|,
                if g.turnCicleClock then "clockwise" else "counterclockwise",
                g.status == FINISHED,
                g.status == WAITING && |g.activePlayerIds| >= 2,
                g.status == WAITING && BelowCeiling(|g.activePlayerIds|, MaxPlayersForGameMode(g.gameMode)))
  }

  /** `canJoin` promises that a player who is not yet active could join as one;
      the converse holds for every mode except the two inherited keys. */
  lemma CanJoinIffFreshPlayerJoins(g: Game, playerId: string)
    requires playerId !in g.activePlayerIds
    ensures GetGameSummary(g).canJoin ==> AddPlayerToGame(g, playerId, ActiveRole).Ok?
    ensures ToLower(g.gameMode) !in InheritedKeys ==>
              (AddPlayerToGame(g, playerId, ActiveRole).Ok? ==> GetGameSummary(g).canJoin)
  {
  }

  /** Under the mode `constructor` (or `__proto__`) a waiting game never fills:
      every fresh active join succeeds, while the summary says no one can join. */
  lemma InheritedModeHasNoCeiling(g: Game, playerId: string)
    requires ToLower(g.gameMode) in InheritedKeys
    requires g.status == WAITING && playerId !in g.activePlayerIds
    ensures AddPlayerToGame(g, playerId, ActiveRole).Ok?
    ensures var g' := ApplyGamePatch(g, AddPlayerToGame(g, playerId, ActiveRole).value);
            |g'.activePlayerIds| == |g.activePlayerIds| + 1
    ensures !GetGameSummary(g).canJoin
  {
  }

  /** A game created without a current player or a status waits, starts once two
      players are in, and gives the turn to the first player, then the second. */
  lemma NewGameTurnOrder(n: NewGame, gameId: string)
    requires n.currentPlayerId.None? && n.status.None? && n.turnCicleClock.None?
    requires |n.activePlayerIds| >= 2 && NoDup(n.activePlayerIds)
    ensures var g := CreateGame(n, gameId);
            && g.status == WAITING
            && StartGame(g).Ok?
            && var started := ApplyGamePatch(g, StartGame(g).value);
               && started.currentPlayerId == n.activePlayerIds[0]
               && ApplyGamePatch(started, MoveToNextPlayer(started).value).currentPlayerId == n.activePlayerIds[1]
  {
    var g := CreateGame(n, gameId);
    var started := ApplyGamePatch(g, StartGame(g).value);
    IndexOfNoDup(n.activePlayerIds, 0);
  }
}
