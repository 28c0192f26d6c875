# myboardgame backend core in Dafny

This project models the rules in the backend of myboardgame, a card-game lobby and session server. The store it reads and writes (MySQL in the original) is modelled as a map from id to row. The project covers:

- **Game sessions** (`backend/src/repository/game.repository.ts`). A stored game record moves through the status machine WAITING → ACTIVE → FINISHED. Turns rotate over the active player list in either direction. Players move between the active, inactive and observer lists. Cards are drawn from the draw pile, and the used pile is reshuffled into it when the draw pile is empty. The 52-card and 108-card Uno decks are built and shuffled with Fisher–Yates.
- **Rooms** (`backend/src/repository/room.repository.ts`). Players join and leave an ordered player list, subject to a capacity check. When the host leaves, the host role passes to the first remaining player. A room left empty is deleted. The module also covers field-wise patches, the password gate, the expiry sweep, and the listing filters with their paging arithmetic.
- **Room routes** (`backend/src/route/room.routers.ts`): `validateRoomData`, the bounded room-id retry loop, and the guard chains of create, join, leave, update, status, delete and transfer-host.
- **Users** (`backend/src/repository/user.repository.ts`): the level computed from experience, the counters, patch updates that keep uids unique, creation defaults, and listing.
- **User routes** (`backend/src/route/user.routes.ts`): pagination flags, required fields and defaults, the status range, positive experience awards, the admin-or-self guard and the no-self-delete guard.
- **Auth routes** (`backend/src/route/auth.routes.ts`): required fields, the sign-up password regular expression, and the login outcome.
- **Id codes** (`backend/src/util/GenerationUID.ts` and the private generators in the repositories and routes).

Modules:

| module | file | models |
|---|---|---|
| `Common` | common.dfy | `Option`/`Result`, JavaScript truthiness and `\|\|` defaults, `filter`, `indexOf`, `new Set`, `slice`, `Math.ceil` paging, random draws, HTTP status codes |
| `Uid` | uid.dfy | `GenerationUID.ts` |
| `Decks` | decks.dfy | `shuffleArray`, `generateStandard52Deck`, `generateUnoDeck` |
| `Games` | game.dfy | the game record and the update each game operation computes |
| `GameStore` | game_repository.dfy | class `GameRepository`: the `game` table and the read-modify-write methods |
| `Rooms` | room.dfy | the room row, the entity mapping and the pure room rules |
| `RoomStore` | room_repository.dfy | class `RoomRepository`: the `rooms` table and its mutating methods |
| `RoomRoutes` | room_routes.dfy | the room HTTP handlers |
| `Users` | user.dfy | the user row, patches, levels and lookups |
| `UserStore` | user_repository.dfy | class `UserRepository`: the `users` table and its mutating methods |
| `UserRoutes` | user_routes.dfy | the user HTTP handlers |
| `Auth` | auth.dfy | sign-up and login |

The shape of the model:

- Every game operation is a pure function from the stored record to a `Result` holding a partial update (`GamePatch`, the source's `Partial<Game>`).
- The repository classes hold the table as a `map` field and write that update. Each class method is specified by the pure function.
- Each route handler is a guard function: its failure is an HTTP status and a message, or `None` when every check passes. The handler itself is a method on the repository object, specified by that guard.
- Every `Math.random()` call is an input draw `u` with `0 <= u < 1`. The clock is an input `now`.
- Facts about the code that the model keeps as they are:
  - `startGame` does not set `currentPlayerId`. It is defaulted to the first active player when the game is created.
  - The repository's `removePlayerFromRoom` does not fail for a player who is absent; the leave route refuses such a player.
  - `getMaxPlayersForGameMode` looks the lower-cased mode up in a plain object, so the modes `constructor` and `__proto__` find inherited members of `Object.prototype`. The ceiling is then not a number: an active join is never refused as full, and the summary's `canJoin` is always false.
  - Room ids made by the room routes are `ROOM-` plus six characters of `A–Z0–9`; the id helpers in `GenerationUID.ts` make three letters and five digits instead.

## Model

| member | source | states |
|---|---|---|
| Common.RemoveAll | backend/src/repository/room.repository.ts:403-407 | `filter(id => id !== x)` removes every occurrence of x and keeps every other element; nothing is removed when x is absent |
| Common.RemoveAllIsOrderedFilter | backend/src/repository/room.repository.ts:403-407 | filtering distributes over concatenation, so the survivors keep their relative order |
| Common.RemoveAllNoDup | backend/src/repository/game.repository.ts:475-490 | filtering a duplicate-free list leaves it duplicate-free |
| Common.RemoveAllShrinks | backend/src/repository/room.repository.ts:403-407 | filtering out an element that occurs makes the list strictly shorter |
| Common.AppendFreshNoDup | backend/src/repository/room.repository.ts:376-385 | appending an id that is not yet present keeps a list duplicate-free |
| Common.NoDupConcat | backend/src/repository/game.repository.ts:683-695 | two duplicate-free lists with no common element concatenate to a duplicate-free list |
| Common.IndexOf | backend/src/repository/game.repository.ts:298-317 | `indexOf` gives -1 exactly when the element is absent; otherwise it gives the first position holding it |
| Common.IndexOfNoDup | backend/src/repository/game.repository.ts:298-317 | in a duplicate-free list, `indexOf` finds the one position holding the element |
| Common.Dedup | backend/src/route/room.routers.ts:151 | `[...new Set(s)]` holds exactly the elements of s and is no longer than s |
| Common.DedupProperties | backend/src/route/room.routers.ts:151 | `new Set` leaves no repeat and keeps the first element first |
| Common.DedupOfNoDup | backend/src/route/room.routers.ts:151 | a list without repeats passes through `new Set` unchanged |
| Common.JsSlice | backend/src/repository/game.repository.ts:528-529 | `s.slice(start, end)`: negative bounds count from the end, bounds are clamped to the list, and within range it is the plain slice |
| Common.ToLower | backend/src/repository/game.repository.ts:668 | `toLowerCase` on ASCII letters: same length, each letter lowered, every other character kept |
| Common.SplitAtCount | backend/src/repository/game.repository.ts:527-536 | `slice(0, count)` followed by `slice(count)` gives back the pile for every integer count, including negative ones; the first piece has JavaScript's length |
| Common.ScaledFloorInRange | backend/src/util/GenerationUID.ts:7 | `Math.floor(Math.random() * n)` is an index in [0, n) |
| Common.CeilDiv | backend/src/repository/user.repository.ts:404-418 | `Math.ceil(a / b)` is the least integer at or above the quotient |
| Common.Paginate | backend/src/repository/room.repository.ts:160-184 | limit defaults to 50 and page to 1; offset = (page - 1) * limit; with a positive limit, totalPages pages of limit rows are the fewest that hold total rows |
| Common.RowOnSomePage | backend/src/repository/user.repository.ts:404-418 | with a positive limit, every row lies in the window of exactly one page between 1 and totalPages |
| Common.Truthy | backend/src/route/room.routers.ts:40-44 | an optional string is truthy when present and not empty, as in `if (data.roomName)` |
| Common.OrNull | backend/src/repository/room.repository.ts:26-40 | `s \|\| null` is the string when it is truthy, otherwise null |
| Common.OrEmpty | backend/src/route/room.routers.ts:459 | `s \|\| ''` is the string when it is truthy, otherwise "" |
| Common.TruthyInt | backend/src/route/room.routers.ts:46-50 | an optional number is truthy when present and not 0, as in `if (data.maxPlayers)` |
| Common.OrInt | backend/src/repository/user.repository.ts:18-38 | `n \|\| d` is the number when it is non-zero, otherwise d |
| Uid.CharsFromShape | backend/src/util/GenerationUID.ts:1-17 | each draw contributes exactly one character of the alphabet, because every index is in range and `charAt` never yields "" |
| Uid.AppendRandomChars | backend/src/util/GenerationUID.ts:5-8 | the loop appends one random alphabet character per draw to the prefix |
| Uid.DigitsFrom | backend/src/util/GenerationUID.ts:11-14 | the digit loop yields one character in '0'..'9' per draw |
| Uid.GenerateUID | backend/src/util/GenerationUID.ts:1-17 | 8 characters: three drawn capital letters, then five drawn digits |
| Uid.GenerateRoomUID | backend/src/util/GenerationUID.ts:19-35 | "room_" and a code of the same shape, 13 characters |
| Uid.GenerateUserUID | backend/src/util/GenerationUID.ts:37-53 | "USER_" and a code of the same shape, 13 characters |
| Decks.SwapAt | backend/src/repository/game.repository.ts:736-737 | the destructuring swap exchanges two positions, leaves the others alone and permutes the list |
| Decks.PickIndex | backend/src/repository/game.repository.ts:736 | the index drawn when the loop variable is m lies in [0, m] |
| Decks.ShuffleState | backend/src/repository/game.repository.ts:733-740 | at every loop step the copy is a permutation of the input |
| Decks.Shuffled | backend/src/repository/game.repository.ts:733-740 | `shuffleArray` returns a permutation of its input, of the same length |
| Decks.ShuffleArray | backend/src/repository/game.repository.ts:733-740 | the downward swap loop over an array copy computes `Shuffled`, a permutation of the input |
| Decks.SuitRun | backend/src/repository/game.repository.ts:688-692 | one suit's cards are `value + suit`, in value order |
| Decks.SuitRunsShape | backend/src/repository/game.repository.ts:683-695 | the nested loops push \|suits\| * \|values\| cards, each ending in one of the suits |
| Decks.SuitRunDistinct | backend/src/repository/game.repository.ts:688-692 | distinct values give distinct cards within a suit |
| Decks.SuitRunEnds | backend/src/repository/game.repository.ts:688-692 | every card of a one-character suit ends with that suit |
| Decks.NoDupFront | backend/src/repository/game.repository.ts:683-695 | a duplicate-free list without its last element is duplicate-free and lacks that element |
| Decks.SuitRunsDistinct | backend/src/repository/game.repository.ts:683-695 | distinct one-character suits and distinct values give distinct cards |
| Decks.Standard52Ordered | backend/src/repository/game.repository.ts:683-695 | the unshuffled standard deck is 52 distinct cards |
| Decks.GenerateStandard52Deck | backend/src/repository/game.repository.ts:683-695 | the nested push loops followed by the shuffle give a permutation of the 52 distinct cards |
| Decks.Twice | backend/src/repository/game.repository.ts:697-731 | pushing each name twice doubles the count and adds no other card |
| Decks.Repeat | backend/src/repository/game.repository.ts:724-728 | four pushes of a wild card give four copies of it |
| Decks.RepeatCount | backend/src/repository/game.repository.ts:724-728 | n copies of x hold x exactly n times and nothing else |
| Decks.Labels | backend/src/repository/game.repository.ts:697-731 | the card of colour c and name k is `${c}-${k}` |
| Decks.ColorCards | backend/src/repository/game.repository.ts:706-721 | each colour pushes 25 cards (the counts per card are stated by Decks.ColorCardsCounts) |
| Decks.ColorCardsCounts | backend/src/repository/game.repository.ts:706-721 | each colour has exactly one zero, two of each number 1–9 and two of each of Skip, Reverse and Draw2 |
| Decks.RunCount | backend/src/repository/game.repository.ts:706-721 | in a colour's run of distinct card names, the zero occurs once and every other name twice |
| Decks.RunCountOf | backend/src/repository/game.repository.ts:706-721 | the number of copies of a name in a colour's run: one for the zero plus two per occurrence among the numbers and actions |
| Decks.TwiceCount | backend/src/repository/game.repository.ts:711-719 | pushing every card twice doubles the count of each card |
| Decks.LabelsCount | backend/src/repository/game.repository.ts:711-719 | prefixing the colour keeps the count of each card name |
| Decks.LabelInjective | backend/src/repository/game.repository.ts:711-719 | two labels of one colour are equal exactly when their card names are |
| Decks.UnoWildCounts | backend/src/repository/game.repository.ts:724-728 | the ordered deck holds four Wild and four WildDraw4 cards |
| Decks.ColorRuns | backend/src/repository/game.repository.ts:706-721 | the colour loop pushes 25 cards per colour |
| Decks.WildRuns | backend/src/repository/game.repository.ts:724-728 | the wild loop pushes 4 cards per wild name |
| Decks.ColorCardsStartWithColor | backend/src/repository/game.repository.ts:706-721 | every card of one colour starts with that colour's letter |
| Decks.ColorRunsStartWithColor | backend/src/repository/game.repository.ts:706-721 | every coloured card starts with one of the colour letters |
| Decks.WildRunsOfTwo | backend/src/repository/game.repository.ts:724-728 | the two wild names give four copies of each wild card and nothing else |
| Decks.NoWildAmongColored | backend/src/repository/game.repository.ts:697-731 | no coloured card is a wild card, since "W" is not a colour |
| Decks.FourOfEach | backend/src/repository/game.repository.ts:724-728 | each wild card occurs exactly four times in the deck |
| Decks.UnoOrdered | backend/src/repository/game.repository.ts:697-731 | the unshuffled Uno deck has 108 cards, including four `W-Wild` and four `W-WildDraw4` |
| Decks.PushEachTwice | backend/src/repository/game.repository.ts:711-720 | each inner loop appends `${color}-${name}` twice for every name, in order |
| Decks.PushColorCards | backend/src/repository/game.repository.ts:706-721 | one iteration of the colour loop appends that colour's 25 cards |
| Decks.GenerateUnoDeck | backend/src/repository/game.repository.ts:697-731 | the colour loop, the wild loop and the shuffle give a permutation of the 108-card deck |
| Games.CreateGame | backend/src/repository/game.repository.ts:12-65 | creation defaults: status WAITING, clockwise, empty piles and lists; a given active deck, inactive deck, inactive-player list or observer list is stored as given; a missing or empty current player becomes the first active player, or "" when there is none |
| Games.ApplyGamePatch | backend/src/repository/game.repository.ts:227-263 | (corrected update) every field present in the update is written, every other field is kept, and id, room and mode never change |
| Games.PatchLaws | backend/src/repository/game.repository.ts:227-263 | an empty update changes nothing; writing an update twice is writing it once |
| Games.UpdateGameAsWritten | backend/src/repository/game.repository.ts:239-242 | (as written) of the whole update only `currentPlayerId` reaches the store |
| Games.StartGame | backend/src/repository/game.repository.ts:365-374 | succeeds exactly from WAITING with at least 2 active players, and then only the status becomes ACTIVE; any other status or fewer players is the matching error |
| Games.FinishGame | backend/src/repository/game.repository.ts:384-402 | FINISHED from any status; nothing else changes and the winner is not stored |
| Games.StartGameLostAsWritten | backend/src/repository/game.repository.ts:239-242 | through the stub, a successful start leaves the stored game WAITING, while the requested update makes it ACTIVE |
| Games.FinishGameLostAsWritten | backend/src/repository/game.repository.ts:239-242 | through the stub, finishing leaves the status unchanged |
| Games.NextPlayerId | backend/src/repository/game.repository.ts:298-317 | the next player is `active[(i+1) mod n]` clockwise and `active[(i-1+n) mod n]` otherwise, or the first active player when the current one is absent; it is always an active player |
| Games.MoveToNextPlayer | backend/src/repository/game.repository.ts:288-317 | an error unless ACTIVE; an empty active list changes nothing; otherwise only the current player changes, to `NextPlayerId` |
| Games.SetCurrentPlayer | backend/src/repository/game.repository.ts:337-348 | the membership check comes first, then the status check; on success only the current player changes |
| Games.ReverseTurnCycle | backend/src/repository/game.repository.ts:546-565 | only an ACTIVE game reverses, and then only the direction flips |
| Games.StepThenStepBack | backend/src/repository/game.repository.ts:298-317 | with no repeated active player, a step forwards and a step backwards return the turn to the same player |
| Games.ReverseHandsTurnBack | backend/src/repository/game.repository.ts:280-327 | advancing, reversing and advancing again returns the turn to the player who had it, with play running the other way |
| Games.TurnIndex | backend/src/repository/game.repository.ts:298-317 | the index k turns on is always a valid index |
| Games.RingNextMod | backend/src/repository/game.repository.ts:298-317 | one turn and then k - 1 more is k turns |
| Games.OneTurn | backend/src/repository/game.repository.ts:298-317 | one turn moves the current player from index i to the next index in the direction of play |
| Games.TurnsRotate | backend/src/repository/game.repository.ts:280-327 | k turns from the player at index i reach index i + k (clockwise) or i - k (counterclockwise) modulo n, and change nothing else |
| Games.MaxPlayersForGameMode | backend/src/repository/game.repository.ts:659-669 | the case-insensitive ceiling table: poker 9, blackjack 7, uno 10, rummy 6, default 4, any other mode 4; the lower-case inherited keys `constructor` and `__proto__` give a non-number instead |
| Games.AtCeiling | backend/src/repository/game.repository.ts:428-431 | `length >= maxPlayers`, false against the non-number ceiling |
| Games.BelowCeiling | backend/src/repository/game.repository.ts:639-640 | `length < maxPlayers`, false against the non-number ceiling |
| Games.MaxPlayersIgnoresCase | backend/src/repository/game.repository.ts:659-669 | the ceiling does not depend on letter case (with the helper Common.ToLowerIdempotent: lower-casing twice is lower-casing once) |
| Games.AddPlayerToGame | backend/src/repository/game.repository.ts:415-452 | an active join needs WAITING, is a no-op for a player already active, and fails at the ceiling; otherwise it appends once and removes the player from the other lists. An observer join always succeeds and only appends to the observer list |
| Games.MovePlayerToInactive | backend/src/repository/game.repository.ts:475-490 | an error unless ACTIVE; a no-op for a player who is not active; otherwise the player leaves the active list and is appended to the inactive one |
| Games.AddActivePreservesWellFormed | backend/src/repository/game.repository.ts:415-444 | an active join keeps every list duplicate-free and the lists pairwise disjoint |
| Games.MoveToInactivePreservesWellFormed | backend/src/repository/game.repository.ts:475-490 | moving a player to the inactive list keeps the lists duplicate-free and disjoint |
| Games.ObserverJoinCanBreakDisjointness | backend/src/repository/game.repository.ts:447-452 | an observer join leaves the player on the active list as well, so the lists stop being disjoint |
| Games.InGame | backend/src/repository/game.repository.ts:594-596 | `isPlayerInGame` for a found game: the player is on the active, inactive or observer list |
| Games.JoinKeepsEveryone | backend/src/repository/game.repository.ts:407-462 | after a join the player is in the game, and nobody who was in it has left |
| Games.MoveToInactiveKeepsEveryone | backend/src/repository/game.repository.ts:467-496 | losing moves a player between lists, never out of the game |
| Games.FinishedGameIsFinal | backend/src/repository/game.repository.ts:280-565 | a FINISHED game refuses every turn, player and card operation except an observer join |
| Games.DrawCard | backend/src/repository/game.repository.ts:501-541 | an error unless ACTIVE. From a non-empty pile: the drawn cards followed by the new pile are the old pile, min(count, \|pile\|) cards are drawn, and they are appended to the used pile. From an empty pile: the drawn cards followed by the new pile are the shuffled used pile, and the used pile is emptied |
| Games.DrawCardAccounting | backend/src/repository/game.repository.ts:513-536 | a normal draw keeps every card of the game in one of the two piles; a reshuffle draw takes the drawn cards out of both piles |
| Games.ReshuffleDropsDrawnCards | backend/src/repository/game.repository.ts:519-522 | with one used card and an empty pile, that card is drawn and then the game holds no card in either pile |
| Games.GetGameSummary | backend/src/repository/game.repository.ts:619-648 | the counts of the lists and piles, the direction, game over exactly when FINISHED, and canStart exactly when `startGame` would succeed |
| Games.CanJoinIffFreshPlayerJoins | backend/src/repository/game.repository.ts:619-648 | when canJoin is true, a player who is not yet active could join as an active player; for every mode but the two inherited keys, the converse holds too |
| Games.InheritedModeHasNoCeiling | backend/src/repository/game.repository.ts:428-444 | under the mode `constructor` or `__proto__`, a fresh active join into a waiting game always succeeds and lengthens the list, while canJoin is false |
| Games.NewGameTurnOrder | backend/src/repository/game.repository.ts:17-19 | a new game waits, starts with two players, gives the first turn to the first player and the next one to the second |
| GameStore.GameRepository.constructor | backend/src/repository/game.repository.ts:6-7 | the store starts empty |
| GameStore.GameRepository.CreateGame | backend/src/repository/game.repository.ts:12-65 | an unused id stores the `CreateGame` record under that id; a taken id fails and changes nothing |
| GameStore.GameRepository.FindGameByGameId | backend/src/repository/game.repository.ts:70-87 | the stored game, or null exactly when there is none |
| GameStore.GameRepository.UpdateGame | backend/src/repository/game.repository.ts:227-263 | (corrected update) writes the whole update to a stored game and returns it; a missing game gives null and changes nothing |
| GameStore.GameRepository.Commit | backend/src/repository/game.repository.ts:280-565 | an error writes nothing; otherwise the computed update is written and the new record returned |
| GameStore.GameRepository.MoveToNextPlayer | backend/src/repository/game.repository.ts:280-327 | a missing game gives null; otherwise the result of `Games.MoveToNextPlayer` is committed |
| GameStore.GameRepository.SetCurrentPlayer | backend/src/repository/game.repository.ts:329-353 | the same, for `Games.SetCurrentPlayer` |
| GameStore.GameRepository.StartGame | backend/src/repository/game.repository.ts:358-379 | the same, for `Games.StartGame` |
| GameStore.GameRepository.FinishGame | backend/src/repository/game.repository.ts:384-402 | a stored game becomes FINISHED and nothing else changes |
| GameStore.GameRepository.AddPlayerToGame | backend/src/repository/game.repository.ts:407-462 | the same, for `Games.AddPlayerToGame` |
| GameStore.GameRepository.MovePlayerToInactive | backend/src/repository/game.repository.ts:467-496 | the same, for `Games.MovePlayerToInactive` |
| GameStore.GameRepository.ReverseTurnCycle | backend/src/repository/game.repository.ts:546-565 | the same, for `Games.ReverseTurnCycle` |
| GameStore.GameRepository.DrawCard | backend/src/repository/game.repository.ts:501-541 | a missing game gives no cards and null; otherwise the piles of `Games.DrawCard` are written and the drawn cards returned |
| GameStore.GameRepository.IsPlayerInGame | backend/src/repository/game.repository.ts:588-614 | with a game id, whether the player is on one of that game's lists; without one, whether some unfinished game lists the player |
| GameStore.GameRepository.GetGameSummary | backend/src/repository/game.repository.ts:619-648 | the summary of a stored game, or null exactly when there is none |
| Rooms.MapToRoomEntity | backend/src/repository/room.repository.ts:700-739 | an unset capacity reads as 4, an unset mode as "default" and unset game settings as the empty object `{}`; the player count always equals the length of the player list; every other field is copied |
| Rooms.MapToRoomEntityNormalises | backend/src/repository/room.repository.ts:700-739 | the read defaults are a fixed point: writing back what was read and reading again gives the same room |
| Rooms.CreateRow | backend/src/repository/room.repository.ts:13-56 | the inserted row with the `\|\|` / `??` defaults: no players, capacity 4, public, mode "default", game settings `{}` |
| Rooms.CreatedRoomReadsBack | backend/src/repository/room.repository.ts:13-56 | a created room reads back with a positive capacity, its default mode, and a count equal to its initial players |
| Rooms.ApplyRoomPatch | backend/src/repository/room.repository.ts:259-330 | exactly the fields present in the patch change, game settings included (a falsy value is written as `{}`); the room id never does |
| Rooms.RoomPatchLaws | backend/src/repository/room.repository.ts:259-330 | an empty patch changes nothing; a patch written twice is written once |
| Rooms.IsFull | backend/src/repository/room.repository.ts:371 | the capacity test: a truthy count at or above a truthy capacity |
| Rooms.AddPlayerToRoom | backend/src/repository/room.repository.ts:366-385 | an inactive room fails, then a full room, and only then is membership checked. A member gets the list unchanged; a newcomer is appended at the end, with earlier order kept and no repeat introduced |
| Rooms.JoinWithinCapacity | backend/src/repository/room.repository.ts:366-385 | a join never takes a room past a positive capacity it was within |
| Rooms.RemovePlayerFromRoom | backend/src/repository/room.repository.ts:395-426 | every occurrence of the player is removed. A departing host is replaced by the first remaining player. An emptied room is deleted and null returned. The room returned is the one read back before the host change |
| Rooms.LeaveKeepsOthersInOrder | backend/src/repository/room.repository.ts:403-407 | the players before and after the leaver keep their order |
| Rooms.HostStaysMember | backend/src/repository/room.repository.ts:410-413 | a host who is a player stays a player of every room that does not become empty |
| Rooms.LeaveTwiceIsLeaveOnce | backend/src/repository/room.repository.ts:395-426 | a second leave by the same player changes nothing |
| Rooms.LeaveReturnsStaleHost | backend/src/repository/room.repository.ts:410-422 | when the host leaves others behind, the stored host changes but the returned room still names the departed host |
| Rooms.FindRoomByRoomId | backend/src/repository/room.repository.ts:215-232 | the mapped room, or null exactly when the id is not stored |
| Rooms.IsUserInRoom | backend/src/repository/room.repository.ts:61-76 | some room in use lists the user |
| Rooms.MemberIsInRoom | backend/src/repository/room.repository.ts:61-76 | a player of any room in use counts as being in a room |
| Rooms.IsUserInSpecificRoom | backend/src/repository/room.repository.ts:81-95 | the given room exists and lists the user, whether in use or not |
| Rooms.SpecificRoomImpliesSomeRoom | backend/src/repository/room.repository.ts:81-95 | being in a specific room in use implies being in some room |
| Rooms.CountPlayersInRoom | backend/src/repository/room.repository.ts:507-518 | 0 for a missing room, otherwise the length of its player list |
| Rooms.CheckRoomPassword | backend/src/repository/room.repository.ts:556-568 | true for a missing or public room; for a private room, true exactly when the password equals the stored one |
| Rooms.PrivateWithoutPasswordIsClosed | backend/src/repository/room.repository.ts:556-568 | a private room with no stored password admits nobody |
| Rooms.Expired | backend/src/repository/room.repository.ts:576-579 | the delete condition: `expires_at` is set and earlier than now |
| Rooms.ExpiredIds | backend/src/repository/room.repository.ts:573-588 | the expired rooms are stored rooms |
| Rooms.Sweep | backend/src/repository/room.repository.ts:573-588 | after the sweep, exactly the rows with an expiry earlier than now are gone and the rest are unchanged |
| Rooms.SweepCount | backend/src/repository/room.repository.ts:573-588 | the count of deleted rows is the number of expired rooms |
| Rooms.SweepIdempotent | backend/src/repository/room.repository.ts:573-588 | an immediate second sweep deletes nothing |
| Rooms.DefaultListingShowsRoomsInUse | backend/src/repository/room.repository.ts:100-160 | without filters, only rooms in use are listed |
| Rooms.Available | backend/src/repository/room.repository.ts:538-541 | in use, with fewer players than the given bound, or than the room's own capacity without one |
| Rooms.AvailableRoomAdmits | backend/src/repository/room.repository.ts:535-551 | a room found available admits a newcomer, who is appended |
| Rooms.FindAvailableRooms | backend/src/repository/room.repository.ts:535-551 | a room is listed exactly when it is in use and holds fewer players than the given bound, or than its own maxPlayers when no bound is given |
| Rooms.MatchesFilters | backend/src/repository/room.repository.ts:117-145 | the `WHERE` conditions: in use unless inactive rooms are asked for, then mode, privacy and the capacity bounds when given |
| Rooms.GetAllRooms | backend/src/repository/room.repository.ts:100-190 | exactly the rows matching the filters are counted, with the shared paging numbers |
| RoomStore.RoomRepository.constructor | backend/src/repository/room.repository.ts:7-8 | the table starts empty |
| RoomStore.RoomRepository.CreateRoom | backend/src/repository/room.repository.ts:13-56 | a new id stores `CreateRow` and reads it back; a taken id fails and changes nothing |
| RoomStore.RoomRepository.UpdateRoomByRoomId | backend/src/repository/room.repository.ts:259-353 | a missing room gives null; otherwise the patch is written and the room read back under the new id |
| RoomStore.RoomRepository.AddPlayerToRoom | backend/src/repository/room.repository.ts:358-390 | a missing room gives null; otherwise the list computed by `Rooms.AddPlayerToRoom` is stored, or its error returned with nothing written |
| RoomStore.RoomRepository.DeleteRoomByRoomId | backend/src/repository/room.repository.ts:431-444 | true exactly when the room existed; afterwards it does not |
| RoomStore.RoomRepository.RemovePlayerFromRoom | backend/src/repository/room.repository.ts:395-426 | the stored or deleted room and the returned room of `Rooms.RemovePlayerFromRoom` |
| RoomStore.RoomRepository.UpdateRoomStatus | backend/src/repository/room.repository.ts:523-530 | only the status changes |
| RoomStore.RoomRepository.CleanupExpiredRooms | backend/src/repository/room.repository.ts:573-588 | the table becomes `Sweep(now)` and the count is the number of rows deleted |
| RoomRoutes.GenerateRoomUID | backend/src/route/room.routers.ts:18-26 | "ROOM-" and six characters of A–Z0–9, 11 characters |
| RoomRoutes.FirstFreeCandidate | backend/src/route/room.routers.ts:128-147 | the first of the ten candidates that no room holds; none exactly when all ten are taken |
| RoomRoutes.PickRoomId | backend/src/route/room.routers.ts:128-147 | the retry loop makes at most ten attempts and stops at the first free candidate; it fails exactly when all ten collide |
| RoomRoutes.Messages | backend/src/route/room.routers.ts:28-95 | one message per error, in order |
| RoomRoutes.Check | backend/src/route/room.routers.ts:28-95 | a check yields its error exactly when it fails |
| RoomRoutes.AppendLaterCheck | backend/src/route/room.routers.ts:28-95 | running the checks in sequence keeps the errors in check order |
| RoomRoutes.ValidationErrors | backend/src/route/room.routers.ts:28-95 | one error per failed check, each once, in check order |
| RoomRoutes.ValidatedData | backend/src/route/room.routers.ts:30-87 | every field that passes its check is copied, as are the unchecked description, privacy flag, player list and game settings; no other field is, and room id and status never are |
| RoomRoutes.NoErrorsIffAllPass | backend/src/route/room.routers.ts:28-95 | no error is reported exactly when each of the six checks passes |
| RoomRoutes.RoomValidation | backend/src/route/room.routers.ts:28-95 | valid exactly when the error list is empty, exactly when every check passes; a missing host id is always an error |
| RoomRoutes.ValidateLimits | backend/src/route/room.routers.ts:30-62 | the host check and the four bound checks as the source runs them, field by field |
| RoomRoutes.CopyUncheckedFields | backend/src/route/room.routers.ts:64-78 | description, privacy flag, player list and game settings are copied into `roomData` exactly as `ValidatedData` has them |
| RoomRoutes.ValidateRoomData | backend/src/route/room.routers.ts:28-95 | the accumulating validator computes `RoomValidation` |
| RoomRoutes.ValidBodyHasHost | backend/src/route/room.routers.ts:111-116 | a valid body always names a host, so the second host check never fires |
| RoomRoutes.CreateRoomGuard | backend/src/route/room.routers.ts:99-125 | an invalid body gives 400 with its messages; a host already in a live room gives 400; both are checked before an id is drawn |
| RoomRoutes.NewRoom | backend/src/route/room.routers.ts:150-166 | the host first in a repeat-free player list, in use, capacity 4, public and mode "default" unless the body says otherwise; the body's game settings are passed on |
| RoomRoutes.CreatedRoomShape | backend/src/route/room.routers.ts:150-166 | a created room lists its host first and every requested player once, with capacity in [2, 20] |
| RoomRoutes.CreateCanOverfill | backend/src/route/room.routers.ts:150-160 | creation does not bound the players by the capacity: two places and three players give a room of three |
| RoomRoutes.CreateRoomRoute | backend/src/route/room.routers.ts:97-190 | a refusal writes nothing; ten collisions give 500; otherwise the new room is stored under the first free id |
| RoomRoutes.JoinGuard | backend/src/route/room.routers.ts:433-478 | the join checks in order: player id, room found, room active, password of a private room, player in no live room |
| RoomRoutes.JoinRejectsMemberOfThisRoom | backend/src/route/room.routers.ts:469-475 | a player already listed in this very room is refused |
| RoomRoutes.JoinAppendsNewcomer | backend/src/route/room.routers.ts:478-500 | a join past the guards is a newcomer who is appended unless the room is full |
| RoomRoutes.ErrorMessage | backend/src/repository/room.repository.ts:367-372 | the texts the room repository throws for an inactive room, a full room and a duplicate id |
| RoomRoutes.JoinFailure | backend/src/route/room.routers.ts:492-512 | a join error about a full or inactive room answers 400, any other 500, with the repository's message |
| RoomRoutes.JoinRoute | backend/src/route/room.routers.ts:428-514 | a refusal writes nothing; otherwise the repository join is performed, or its error answered |
| RoomRoutes.LeaveGuard | backend/src/route/room.routers.ts:520-545 | a player id, an existing room and the player listed in it |
| RoomRoutes.LeaveShrinksRoom | backend/src/route/room.routers.ts:547-557 | a leave past the guards deletes the room or shrinks it |
| RoomRoutes.LeaveRoute | backend/src/route/room.routers.ts:517-571 | a refusal writes nothing; otherwise the repository leave is performed |
| RoomRoutes.HostGuard | backend/src/route/room.routers.ts:580-602 | only the current host passes: 400 without a requester, 404 without a room, 403 for anyone else |
| RoomRoutes.UpdateGuard | backend/src/route/room.routers.ts:580-622 | the host checks, a new room id not held by another room, and a body that passes validation |
| RoomRoutes.UpdateNeedsHostAndHostId | backend/src/route/room.routers.ts:616-622 | only the host passes, and the body must itself name a host id |
| RoomRoutes.UpdateMayNameOutsideHost | backend/src/route/room.routers.ts:616-625 | the host named in an update need not be a player of the room |
| RoomRoutes.UpdateRoute | backend/src/route/room.routers.ts:574-646 | a refusal writes nothing; otherwise the validated patch is written |
| RoomRoutes.StatusGuard | backend/src/route/room.routers.ts:654-683 | `isUsing` must be a boolean; then the host checks |
| RoomRoutes.StatusRoute | backend/src/route/room.routers.ts:649-707 | only the status changes, and only at the host's request |
| RoomRoutes.DeleteRoute | backend/src/route/room.routers.ts:710-761 | only the host deletes the room; a refusal writes nothing |
| RoomRoutes.TransferGuard | backend/src/route/room.routers.ts:859-889 | both ids, an existing room, the current host named correctly, and a new host who is a player |
| RoomRoutes.TransferHostRoute | backend/src/route/room.routers.ts:876-894 | only the host id changes, and the new host is a player |
| Users.MapToUserEntity | backend/src/repository/user.repository.ts:622-642 | a stored level of 0 reads as 1; every other field is copied |
| Users.GenerateUID | backend/src/repository/user.repository.ts:608-615 | "USER-" and eight drawn characters of the alphabet, 13 characters |
| Users.CreateRow | backend/src/repository/user.repository.ts:18-38 | the given uid or the generated one; status and counters default to 0, texts to null; the level is the given one when truthy, otherwise 1 |
| Users.PatchColumns | backend/src/repository/user.repository.ts:148-215 | the `SET` list: one column per supplied field in source order, the uid only when it changes |
| Users.ApplyUserPatch | backend/src/repository/user.repository.ts:140-233 | each given field is written, every other column keeps its value, and the id never changes |
| Users.EmptySetListChangesNothing | backend/src/repository/user.repository.ts:218-220 | with nothing to set, the stored user is exactly the result of writing the patch |
| Users.UserPatchIdempotent | backend/src/repository/user.repository.ts:140-233 | writing a patch twice is writing it once |
| Users.UpdateUser | backend/src/repository/user.repository.ts:138-238 | null for a missing user; an error exactly when the uid changes to one another user holds; otherwise the patched user |
| Users.UpdateKeepsUidsUnique | backend/src/repository/user.repository.ts:153-158 | an update that passes the uid check keeps every uid held at most once |
| Users.RewriteKeepsUidsUnique | backend/src/repository/user.repository.ts:153-158 | rewriting a row without touching its uid keeps uids unique |
| Users.ISqrt | backend/src/repository/user.repository.ts:617-620 | the integer square root: r² ≤ n < (r+1)² |
| Users.ISqrtMonotone | backend/src/repository/user.repository.ts:617-620 | the integer square root never decreases |
| Users.CalculateLevel | backend/src/repository/user.repository.ts:617-620 | max(1, isqrt(exp div 100)), so at least 1 and bracketed by squares of 100; NaN (none) for a negative total |
| Users.LevelMonotone | backend/src/repository/user.repository.ts:617-620 | more experience never means a lower level |
| Users.AddExperience | backend/src/repository/user.repository.ts:285-300 | the new total is the old total plus the award, and the level is computed from the new total |
| Users.AwardNeverLowersLevel | backend/src/repository/user.repository.ts:285-300 | a positive award never lowers the level |
| Users.RecordGame | backend/src/repository/user.repository.ts:312-319 | one more game played, and one more won exactly when `won` |
| Users.RecordGameKeepsWinsWithinPlayed | backend/src/repository/user.repository.ts:312-319 | wins stay within games played |
| Users.GetAllUsers | backend/src/repository/user.repository.ts:350-431 | exactly the users matching the filters, with the shared paging numbers |
| Users.FindById | backend/src/repository/user.repository.ts:59-76 | the mapped user, or null exactly when there is none |
| Users.NameHolders | backend/src/repository/user.repository.ts:77-90 | exactly the users with that name in game |
| Users.GetUserByNameInGameAsWritten | backend/src/repository/user.repository.ts:77-90 | (as written) it throws exactly when nobody holds the name |
| Users.GetUserByNameInGame | backend/src/repository/user.repository.ts:77-90 | (corrected) the users holding the name, possibly none |
| UserStore.NothingToSet | backend/src/repository/user.repository.ts:218-220 | returning the stored user when nothing is set agrees with writing the patch |
| UserStore.UserRepository.constructor | backend/src/repository/user.repository.ts:8-10 | the table starts empty |
| UserStore.UserRepository.CreateUser | backend/src/repository/user.repository.ts:15-54 | a new uid inserts `CreateRow` under the next id; a uid already held fails and changes nothing |
| UserStore.UserRepository.BuildSetList | backend/src/repository/user.repository.ts:145-216 | the SET list holds one column per given field, in source order, and a uid change to a taken uid is refused |
| UserStore.UserRepository.UpdateUser | backend/src/repository/user.repository.ts:138-238 | the table and result of `Users.UpdateUser`, keeping uids unique |
| UserStore.UserRepository.UpdateUserStatus | backend/src/repository/user.repository.ts:243-258 | only the status and last-seen time change; whether the user exists |
| UserStore.UserRepository.AddExperience | backend/src/repository/user.repository.ts:283-305 | a missing user is an error; otherwise the gain of `Users.AddExperience` is written and returned |
| UserStore.UserRepository.IncrementGamesPlayed | backend/src/repository/user.repository.ts:310-327 | the row becomes `RecordGame(won)`; a missing user changes nothing |
| UserStore.UserRepository.DeleteUser | backend/src/repository/user.repository.ts:332-345 | true exactly when the user existed; afterwards it does not |
| UserRoutes.CallerGuard | backend/src/route/user.routes.ts:476-486 | no caller gives 500, a falsy caller id gives 400, otherwise the caller's id |
| UserRoutes.QueryFilters | backend/src/route/user.routes.ts:21-40 | an absent page becomes 1 and an absent limit 50 |
| UserRoutes.PaginationFlags | backend/src/route/user.routes.ts:57-58 | hasNext is page < totalPages and hasPrev is page > 1 |
| UserRoutes.FlagsMatchRows | backend/src/route/user.routes.ts:57-58 | with a positive limit, hasNext holds exactly when rows remain after this page and hasPrev exactly when this page does not start at row 0 |
| UserRoutes.ListUsers | backend/src/route/user.routes.ts:19-69 | the listing of `GetAllUsers` with hasNext = page < totalPages and hasPrev = page > 1 |
| UserRoutes.CreateGuard | backend/src/route/user.routes.ts:356-361 | passes exactly when the name in game and the login id are given |
| UserRoutes.NewUserUid | backend/src/route/user.routes.ts:363-377 | the given uid, else a `generateUserUID` code; never empty |
| UserRoutes.UserData | backend/src/route/user.routes.ts:363-377 | the route's defaults: status 0, counters 0, level 1, the default avatar |
| UserRoutes.CreatedUserDefaults | backend/src/route/user.routes.ts:363-377 | the route's defaults survive the repository's, and the uid is the route's |
| UserRoutes.CreateUserRoute | backend/src/route/user.routes.ts:334-401 | missing fields give 400; a taken uid gives 400; otherwise the built user is inserted |
| UserRoutes.UpdatePatch | backend/src/route/user.routes.ts:409-442 | the given fields and the last-seen time; never the uid |
| UserRoutes.NameGuardAsWritten | backend/src/route/user.routes.ts:431-439 | (as written) every change of name is refused: 500 when the name is free, 400 when another user holds it |
| UserRoutes.RenameToFreeNameFailsAsWritten | backend/src/route/user.routes.ts:431-439 | renaming to a name nobody holds gives 500 |
| UserRoutes.NameGuard | backend/src/route/user.routes.ts:431-439 | (corrected) a change of name is refused exactly when another user holds the new name |
| UserRoutes.RenameKeepsNameUnique | backend/src/route/user.routes.ts:431-439 | after a rename that passes the guard, the renamed user alone holds the name |
| UserRoutes.UpdateGuard | backend/src/route/user.routes.ts:421-439 | 404 for a missing user, then the name check (corrected; as written see UserRoutes.NameGuardAsWritten, which answers 500 for every rename to a name nobody holds) |
| UserRoutes.UpdateRoute | backend/src/route/user.routes.ts:403-467 | a refusal writes nothing; otherwise the patch is written through the repository (corrected name check; as written see UserRoutes.NameGuardAsWritten) |
| UserRoutes.UpdateAnswer | backend/src/route/user.routes.ts:498-526 | a uid conflict gives 400 and a missing user 404 |
| UserRoutes.ProfilePatch | backend/src/route/user.routes.ts:488-496 | the profile route copies name, uid, location, avatar, phone and bio when sent, and nothing else |
| UserRoutes.ProfileRoute | backend/src/route/user.routes.ts:474-527 | the profile fields are written through the repository |
| UserRoutes.ProfileMayDuplicateName | backend/src/route/user.routes.ts:474-527 | the profile route does not check names, so two users can end with the same name |
| UserRoutes.StatusGuard | backend/src/route/user.routes.ts:550-555 | the status must be in 0..3 |
| UserRoutes.StatusWrite | backend/src/route/user.routes.ts:557-569 | for a stored user: the table with that user's status and last-seen time written, the location written when one is given and kept otherwise, every other field and every other user unchanged |
| UserRoutes.StatusRoute | backend/src/route/user.routes.ts:534-586 | only an accepted status is written |
| UserRoutes.ExperienceGuard | backend/src/route/user.routes.ts:648-653 | the award must be a number > 0 |
| UserRoutes.ExperienceFailure | backend/src/route/user.routes.ts:663-668 | a failed award answers 500 with the repository's message, which names a missing user |
| UserRoutes.ExperienceRoute | backend/src/route/user.routes.ts:633-669 | only an accepted award is added |
| UserRoutes.AcceptedAwardRaisesExperience | backend/src/route/user.routes.ts:648-655 | an accepted award strictly raises the total and never lowers the level |
| UserRoutes.GamesPlayedRoute | backend/src/route/user.routes.ts:676-711 | one game recorded, won exactly when `won` is true |
| UserRoutes.AccessGuard | backend/src/route/user.routes.ts:728-741 | passes exactly for an admin or the user themself |
| UserRoutes.GetUserRoute | backend/src/route/user.routes.ts:720-763 | the user to an admin or to themself, 403 to anyone else, 404 when missing |
| UserRoutes.AdminPatch | backend/src/route/user.routes.ts:795-808 | the admin update copies every sent field except the last-seen time |
| UserRoutes.UpdateUserByIdRoute | backend/src/route/user.routes.ts:770-839 | only an admin or the user themself may update |
| UserRoutes.DeleteGuard | backend/src/route/user.routes.ts:854-875 | deletion needs the admin role, and an admin may not delete themself |
| UserRoutes.DeleteUserRoute | backend/src/route/user.routes.ts:846-897 | only an accepted deletion removes the user |
| Auth.LookaheadMeaning | backend/src/route/auth.routes.ts:30-37 | `(?=.*[k])` succeeds exactly when a character of the class follows with no line terminator before it |
| Auth.DotsToEndMeaning | backend/src/route/auth.routes.ts:30-37 | `.{lo,hi}$` matches exactly when between lo and hi characters remain, none a line terminator |
| Auth.PasswordRegexTest | backend/src/route/auth.routes.ts:30-32 | `regex.test(password)` read structurally: three lookaheads from the start, then 6 to 30 non-line-terminator characters to the end |
| Auth.PasswordRegexMeaning | backend/src/route/auth.routes.ts:30-37 | the password expression accepts exactly the 6–30 non-line-terminator strings with a lowercase letter, an uppercase letter and a character that is neither a letter nor a digit |
| Auth.PasswordExamples | backend/src/route/auth.routes.ts:30-37 | "Abc!12" is accepted; "Abc!1" and "abc!12" are refused |
| Auth.SignupGuard | backend/src/route/auth.routes.ts:24-37 | 400 when username, email or password is missing; then 400 when the password breaks the rule; passes exactly when both hold |
| Auth.Includes | backend/src/route/auth.routes.ts:56 | `message.includes(sub)`: `sub` occurs somewhere in `message` |
| Auth.SignupRoute | backend/src/route/auth.routes.ts:15-68 | past the guards, the created user's id, or the thrown message: 400 for "already exists", 500 otherwise |
| Auth.LoginRoute | backend/src/route/auth.routes.ts:80-110 | 400 without both fields; 401 when no user matches; otherwise the token claims of the user found |

## Left out

- SQL, `mysqlPool` and the table DDL: each table is a `map` keyed by its id.
- Full-text `MATCH … AGAINST`, `LIKE` and `ORDER BY`. This covers `searchRooms` and `searchUsers`, the search filter of `getAllUsers`, and the order of listed rows. Listings are modelled as sets of matching ids.
- `getRoomStats` and `getUserStatistics`: SQL aggregates and floating-point averages.
- Timestamps (`lastActivityAt`, `updatedAt`, `lastSeenAt`). The time is the parameter `now`; a room's `expiresAt` is compared with it.
- `generateGameId` (`Date.now` in base 36): the game id is a parameter of `CreateGame`.
- `generateDefaultDeck`, `getAllGames`, `findGameByRoomId`, `getGamesByStatus`, `getWaitingGames`, `getActiveGames`, `getFinishedGames`, `updateGameStatus` and `deleteGame`: plain queries or writes outside the session rules.
- Games.DrawCard and GameStore.GameRepository.DrawCard: the default `count = 1` of `drawCard` (game.repository.ts:501) is not modelled; `count` is always an explicit argument, and a caller that omits it is the same as one passing 1.
- `mapToGameEntity`: its `JSON.parse` of the list columns is the identity on the stored record.
- `findByLoginId`, `findByUid`, `getOnlineUsers`, `getTopPlayers`, `updateLastSeen` and the lookup, online, top-players, statistics, health and last-seen routes: plain queries.
- The room routes for listings, lookups, player counts, password checks, search, stats, cleanup and health. Their repository calls are modelled; the handlers only forward them.
- The room delete-by-numeric-id route: it repeats the delete route's guard on another key.
- bcrypt and JWT: token signing and the auth repository.
  - The login route receives the user the auth repository found, or none.
  - The sign-up route receives the repository's outcome.
  - `encodePassword` is never awaited in the source; that has no counterpart here.
- The refresh-token and protect routes, which only deal with tokens.
- The `verifyToken` middleware, which does nothing. The caller (`req.user`) is an optional input, and its absence makes the routes answer 500.
- Concurrency: requests run one at a time, so read-modify-write races are not modelled.
- `GameAction.ts`, the legacy `UserRepository.ts`/`UserRoute.ts`, `index.ts` and the whole frontend.
- Strings are sequences of characters, not UTF-16 code units. `toLowerCase` is modelled on ASCII letters only.
- An explicit JSON `null` in a patch body is treated like an absent field.
- A room's `gameSettings` object is modelled by its JSON text; `JSON.stringify` and `JSON.parse` are taken to be inverse, and the settings' contents are not interpreted.
- UserRoutes.StatusGuard: the status is assumed to be an integer or absent. The loose test at user.routes.ts:550 also accepts `null`, non-numeric strings and fractions, which the model does not represent.
- UserRoutes.StatusRoute: the same integer assumption as UserRoutes.StatusGuard.
- UserRoutes.ExperienceGuard: the award is assumed to be an integer or absent. The test `!exp || exp <= 0` also accepts a numeric string such as "50", after which `addExperience` concatenates strings instead of adding; the model does not represent that.
- UserRoutes.ExperienceRoute: the same integer assumption as UserRoutes.ExperienceGuard.
- RoomRoutes.ValidatedData: `maxPlayers` is assumed to be an integer; a fractional or numeric-string value, which passes the range test at room.routers.ts:46-50, is not represented.
- MySQL error texts: a duplicate key is a named error.
- UserRoutes.ExperienceRoute: a negative new total has a NaN level in JavaScript, which MySQL rejects. The model writes nothing and answers 500 with its own message.
- UserRoutes.UpdateGuard and UserRoutes.UpdateRoute use the corrected name check of the second finding below; the code as written is UserRoutes.NameGuardAsWritten.
- UserRoutes.UpdateRoute: the user id taken from the body is an integer; a body without `id` is not modelled.

## Findings

| source | as written | input that shows it | evidently intended | confidence | as-written member | corrected member |
|---|---|---|---|---|---|---|
| backend/src/repository/game.repository.ts:239-242 | `updateGame` writes only `currentPlayerId`, whatever the update holds | `startGame` on a WAITING game with two active players: the stored status stays WAITING | every field of the update is written | not executed | Games.UpdateGameAsWritten (Games.StartGameLostAsWritten) | Games.ApplyGamePatch (GameStore.GameRepository.UpdateGame) |
| backend/src/repository/user.repository.ts:77-90 | `getUserByNameInGame` maps the first row without checking that there is one, so a name nobody holds throws | `PATCH /update` renaming a user to a name nobody holds gets 500 "Failed to find user" | a free name means no user, and the rename goes ahead | not executed | UserRoutes.NameGuardAsWritten (UserRoutes.RenameToFreeNameFailsAsWritten) | UserRoutes.NameGuard (Users.GetUserByNameInGame) |
