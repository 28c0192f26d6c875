/** The stored side of backend/src/repository/game.repository.ts: a repository
    object holding the `game` table as a map from `gameId` to record.  Each
    operation looks the game up (a missing game gives `null`, here `None`),
    computes its update with the functions of `Games`, and writes it back
    through `UpdateGame`. */
module GameStore {
  import opened Common
  import opened Decks
  import opened Games

  /** The outcome of an operation that computed the result `res` for the stored
      game `gameId`: on an error nothing is written; otherwise the update is
      written and the stored record returned. */
  ghost predicate Committed(before: map<string, Game>, after: map<string, Game>, gameId: string,
                            res: Result<GamePatch, GameError>, r: Result<Option<Game>, GameError>)
    requires gameId in before
  {
    match res
    case Err(e) => r == Err(e) && after == before
    case Ok(p) => after == before[gameId := ApplyGamePatch(before[gameId], p)] && r == Ok(Some(after[gameId]))
  }

  /** What `drawCard` returns: the cards handed out and the stored game. */
  datatype DrawOutcome = DrawOutcome(cards: seq<string>, updatedGame: Option<Game>)

  class GameRepository {
    var games: map<string, Game>

    /** Every record is stored under its own id. */
    ghost predicate Valid()
      reads this
    {
      forall id :: id in games ==> games[id].gameId == id
    }

    constructor ()
      ensures Valid() && games == map[]
    {
      games := map[];
    }

    /** `createGame`, with the generated id passed in; an id already taken makes the insert fail. */
    method CreateGame(n: NewGame, gameId: string) returns (r: Result<Game, GameError>)
      requires Valid()
      modifies this
      ensures Valid()
      ensures gameId in old(games) ==> r == Err(DuplicateGameId) && games == old(games)
      ensures gameId !in old(games) ==>
                r == Ok(Games.CreateGame(n, gameId)) && games == old(games)[gameId := r.value]
    {
      if gameId in games {
        return Err(DuplicateGameId);
      }
      var g := Games.CreateGame(n, gameId);
      games := games[gameId := g];
      r := Ok(g);
    }

    /** `findGameByGameId`. */
    function FindGameByGameId(gameId: string): (r: Option<Game>)
      reads this
      ensures r.Some? <==> gameId in games
      ensures r.Some? ==> r.value == games[gameId]
    {
      if gameId in games then Some(games[gameId]) else None
    }

    /** `updateGame`, writing every field of the update (see `Games.UpdateGameAsWritten`
        for the stub the source has instead). */
    method UpdateGame(gameId: string, p: GamePatch) returns (r: Option<Game>)
      requires Valid()
      modifies this
      ensures Valid()
      ensures gameId !in old(games) ==> r.None? && games == old(games)
      ensures gameId in old(games) ==>
                games == old(games)[gameId := ApplyGamePatch(old(games)[gameId], p)] && r == Some(games[gameId])
    {
      if gameId !in games {
        return None;
      }
      games := games[gameId := ApplyGamePatch(games[gameId], p)];
      r := Some(games[gameId]);
    }

    /** Write the computed update, or pass the error on. */
    method Commit(gameId: string, res: Result<GamePatch, GameError>) returns (r: Result<Option<Game>, GameError>)
      requires Valid() && gameId in games
      modifies this
      ensures Valid()
      ensures Committed(old(games), games, gameId, res, r)
    {
      match res
      case Err(e) =>
        r := Err(e);
      case Ok(p) =>
        var u := UpdateGame(gameId, p);
        r := Ok(u);
    }

    /** `moveToNextPlayer`. */
    method MoveToNextPlayer(gameId: string) returns (r: Result<Option<Game>, GameError>)
      requires Valid()
      modifies this
      ensures Valid()
      ensures gameId !in old(games) ==> r == Ok(None) && games == old(games)
      ensures gameId in old(games) ==>
                Committed(old(games), games, gameId, Games.MoveToNextPlayer(old(games)[gameId]), r)
    {
      if gameId !in games {
        return Ok(None);
      }
      r := Commit(gameId, Games.MoveToNextPlayer(games[gameId]));
    }

    /** `setCurrentPlayer`. */
    method SetCurrentPlayer(gameId: string, playerId: string) returns (r: Result<Option<Game>, GameError>)
      requires Valid()
      modifies this
      ensures Valid()
      ensures gameId !in old(games) ==> r == Ok(None) && games == old(games)
      ensures gameId in old(games) ==>
                Committed(old(games), games, gameId, Games.SetCurrentPlayer(old(games)[gameId], playerId), r)
    {
      if gameId !in games {
        return Ok(None);
      }
      r := Commit(gameId, Games.SetCurrentPlayer(games[gameId], playerId));
    }

    /** `startGame`. */
    method StartGame(gameId: string) returns (r: Result<Option<Game>, GameError>)
      requires Valid()
      modifies this
      ensures Valid()
      ensures gameId !in old(games) ==> r == Ok(None) && games == old(games)
      ensures gameId in old(games) ==>
                Committed(old(games), games, gameId, Games.StartGame(old(games)[gameId]), r)
    {
      if gameId !in games {
        return Ok(None);
      }
      r := Commit(gameId, Games.StartGame(games[gameId]));
    }

    /** `finishGame`: the winner is accepted and not stored. */
    method FinishGame(gameId: string, winnerId: Option<string>) returns (r: Option<Game>)
      requires Valid()
      modifies this
      ensures Valid()
      ensures gameId !in old(games) ==> r.None? && games == old(games)
      ensures gameId in old(games) ==>
                games == old(games)[gameId := old(games)[gameId].(status := FINISHED)] && r == Some(games[gameId])
    {
      if gameId !in games {
        return None;
      }
      r := UpdateGame(gameId, Games.FinishGame(games[gameId], winnerId));
    }

    /** `addPlayerToGame`. */
    method AddPlayerToGame(gameId: string, playerId: string, role: Role) returns (r: Result<Option<Game>, GameError>)
      requires Valid()
      modifies this
      ensures Valid()
      ensures gameId !in old(games) ==> r == Ok(None) && games == old(games)
      ensures gameId in old(games) ==>
                Committed(old(games), games, gameId, Games.AddPlayerToGame(old(games)[gameId], playerId, role), r)
    {
      if gameId !in games {
        return Ok(None);
      }
      r := Commit(gameId, Games.AddPlayerToGame(games[gameId], playerId, role));
    }

    /** `movePlayerToInactive`. */
    method MovePlayerToInactive(gameId: string, playerId: string) returns (r: Result<Option<Game>, GameError>)
      requires Valid()
      modifies this
      ensures Valid()
      ensures gameId !in old(games) ==> r == Ok(None) && games == old(games)
      ensures gameId in old(games) ==>
                Committed(old(games), games, gameId, Games.MovePlayerToInactive(old(games)[gameId], playerId), r)
    {
      if gameId !in games {
        return Ok(None);
      }
      r := Commit(gameId, Games.MovePlayerToInactive(games[gameId], playerId));
    }

    /** `reverseTurnCycle`. */
    method ReverseTurnCycle(gameId: string) returns (r: Result<Option<Game>, GameError>)
      requires Valid()
      modifies this
      ensures Valid()
      ensures gameId !in old(games) ==> r == Ok(None) && games == old(games)
      ensures gameId in old(games) ==>
                Committed(old(games), games, gameId, Games.ReverseTurnCycle(old(games)[gameId]), r)
    {
      if gameId !in games {
        return Ok(None);
      }
      r := Commit(gameId, Games.ReverseTurnCycle(games[gameId]));
    }

    /** `drawCard`: the draws `rs` feed the shuffle of the used pile when the draw pile is empty. */
    method DrawCard(gameId: string, count: int, rs: seq<real>) returns (r: Result<DrawOutcome, GameError>)
      requires Valid() && AllDraws(rs)
      requires gameId in games ==> |games[gameId].inActiveDeck| <= |rs| + 1
      modifies this
      ensures Valid()
      ensures gameId !in old(games) ==> r == Ok(DrawOutcome([], None)) && games == old(games)
      ensures gameId in old(games) ==>
                match Games.DrawCard(old(games)[gameId], count, rs)
                case Err(e) => r == Err(e) && games == old(games)
                case Ok(d) =>
                  && games == old(games)[gameId := ApplyGamePatch(old(games)[gameId], d.patch)]
                  && r == Ok(DrawOutcome(d.cards, Some(games[gameId])))
    {
      if gameId !in games {
        return Ok(DrawOutcome([], None));
      }
      var g := games[gameId];
      if g.status != ACTIVE {
        return Err(NonActiveGame);
      }
      var drawn, p;
      if |g.activeDeck| == 0 {
        var shuffled := ShuffleArray(g.inActiveDeck, rs);
        drawn := JsSlice(shuffled, 0, Min(count, |shuffled|));
        var remaining := JsSlice(shuffled, count, |shuffled|);
        p := NoChange.(activeDeck := Some(remaining), inActiveDeck := Some([]));
      } else {
        drawn := JsSlice(g.activeDeck, 0, Min(count, |g.activeDeck|));
        var remaining := JsSlice(g.activeDeck, count, |g.activeDeck|);
        p := NoChange.(activeDeck := Some(remaining), inActiveDeck := Some(g.inActiveDeck + drawn));
      }
      var u := UpdateGame(gameId, p);
      r := Ok(DrawOutcome(drawn, u));
    }

    /** `isPlayerInGame`: with a game id (a non-empty one), whether the player is
        on one of that game's lists; without, whether some game that is not
        FINISHED has the player on one of its lists. */
    function IsPlayerInGame(playerId: string, gameId: Option<string>): (b: bool)
      reads this
      ensures gameId.Some? && gameId.value != "" ==>
                (b <==> gameId.value in games && InGame(games[gameId.value], playerId))
      ensures (gameId.None? || gameId.value == "") ==>
                (b <==> exists id :: id in games && games[id].status != FINISHED && InGame(games[id], playerId))
    {
      if gameId.Some? && gameId.value != "" then
        gameId.value in games && InGame(games[gameId.value], playerId)
      else
        exists id | id in games :: games[id].status != FINISHED && InGame(games[id], playerId)
    }

    /** `getGameSummary`. */
    function GetGameSummary(gameId: string): (r: Option<GameSummary>)
      reads this
      ensures r.Some? <==> gameId in games
      ensures r.Some? ==> r.value == Games.GetGameSummary(games[gameId])
    {
      if gameId in games then Some(Games.GetGameSummary(games[gameId])) else None
    }
  }
}
