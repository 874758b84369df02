# Multiplayer Tetris — a verified Dafny model of its core

This project models the core of a browser Tetris game with a two-player mode:

- **The single-player rules.**
  - The tetromino table and the clockwise rotation (`app/utils/tetrominos.ts`).
  - The board helpers (`app/utils/gameHelpers.ts`): validity, merging a piece, clearing lines, the ghost piece, scoring, level, speed, the start position and the wall-kick search.
  - The state updaters of the game hook (`app/hooks/useGameLogic.ts`): spawn, lock, the moves, rotate, hard and soft drop, pause, start and reset.
- **Two matchmaking servers** that pair players from a queue and relay their games.
  - The PartyKit server class `TetrisServer` (`party/index.ts`).
  - The socket.io server (`server.js`), with its module-level maps, its handlers and its hourly sweep of old rooms.

## Modules

- `wrappers.dfy` (`Wrappers`): `Option`.
- `types.dfy` (`Types`): cells, boards, shapes, pieces, the tetromino types and the board size.
- `tetrominos.dfy` (`Tetrominos`):
  - the table of seven tetrominoes;
  - `Rotated`, the clockwise rotation as a function, with the loop of `rotateShape` as the method `RotateShape` proved equal to it;
  - `getAllRotations`.
- `game_helpers.dfy` (`GameHelpers`): every helper. Each loop of the source (`isValidPosition`, `mergePieceToBoard`, `clearLines`, `getGhostPosition`, `tryRotate`) is a method proved equal to a specification function (`Fits`, `Merged`, `Cleared`, `DropFrom`, `FirstKick`). The properties are lemmas about those functions.
- `game_logic.dfy` (`GameLogic`):
  - Each `setGameState` updater is a function from the previous state to the next. The loops inside `spawnPiece`, `lockPiece` and `hardDrop` are methods proved equal to those functions.
  - `Step` applies one key press or one timer callback to the corrected game, in which the soft drop, the Space key and the spawn after a lock are guarded (see "## Findings"). `StepKeepsInv` shows that every corrected step preserves `Inv`.
  - `StepAsWritten` applies them as the program runs them. `StepAsWrittenKeepsConsistent` shows that every step preserves `Consistent`, which is `Inv` without "an ended game has no piece", and `StepAsWrittenMonotone` shows that no step lowers the best score and no step other than start and reset lowers the score or the lines.
- `lobby.dfy` (`Lobby`): what both servers share. This covers queue entries, first-index search, the "other seat" rule, the generated `GRACZ_<n>` nickname, and the queue invariant.
- `party_server.dfy` (`PartyServer`):
  - The class `TetrisServer` holds the fields `queue`, `games`, `playerRooms`, `connections` and two logs: `outbox` (every message sent) and `timers` (every pending `setTimeout` callback, as a value holding the variables it captured).
  - Each handler is a method whose `ensures` gives the whole new state.
  - `Valid()` is preserved by every handler and every timer. It requires a connection never to be both queued and in a room, at most one player to wait after each handler, every room to have two distinct seats, and every mapping to point to a live room that seats the player.
- `socket_server.dfy` (`SocketServer`): the same for `server.js`, as the class `IoServer`.
  - It also holds `channels`, the membership of each socket.io room.
  - `io.to(room)` reaches every member of the channel, and `socket.to(room)` reaches every member except the sender.
  - The sweep is a loop over the rooms, proved equal to `Fresh` and `StaleRooms`.

Nondeterminism becomes a parameter:

- `Date.now()` is a `now` argument.
- `Math.random()` is a given room id or nickname number.
- The next random tetromino is a given type.
- A timer firing is `FireTimer(k)`, which runs any pending callback, in any order.

## Model

| member | source | states |
|---|---|---|
| Tetrominos.CatalogShapes | app/utils/tetrominos.ts:4-61 | every tetromino's shape is non-empty and rectangular, holds only 0 and 1, and has exactly four filled cells |
| Tetrominos.CatalogBinary | app/utils/tetrominos.ts:4-61 | every tetromino's shape holds only 0 and 1 |
| Tetrominos.CatalogBlocks | app/utils/tetrominos.ts:4-61 | every tetromino's shape has exactly four filled cells |
| Tetrominos.CatalogColorsDistinct | app/utils/tetrominos.ts:4-61 | two different tetromino types have different colours |
| Tetrominos.AllTypesComplete | app/utils/tetrominos.ts:4-61 | there are exactly seven types and every type is among them |
| Tetrominos.Rotated | app/utils/tetrominos.ts:70-83 | rotating an r×c shape gives c rows of width r |
| Tetrominos.RotatedAt | app/utils/tetrominos.ts:70-83 | cell (i, r-1-j) of the rotated shape is cell (j, i) of the original |
| Tetrominos.RotatedWellShaped | app/utils/tetrominos.ts:70-83 | the rotation of a non-empty rectangular shape is non-empty and rectangular, with its dimensions swapped |
| Tetrominos.RotatedBlocks | app/utils/tetrominos.ts:70-83 | rotation keeps the number of filled cells |
| Tetrominos.RotatedBinary | app/utils/tetrominos.ts:70-83 | rotation of a 0/1 shape is a 0/1 shape |
| Tetrominos.FourRotationsIdentity | app/utils/tetrominos.ts:70-83 | four rotations give back the original shape |
| Tetrominos.RotateShape | app/utils/tetrominos.ts:70-83 | the nested-loop rotation fills exactly the rotated shape |
| Tetrominos.RotateO | app/utils/tetrominos.ts:70-83 | rotating the O piece leaves it unchanged |
| Tetrominos.RotateI | app/utils/tetrominos.ts:70-83 | rotating the horizontal I gives a vertical bar in column 2 |
| Tetrominos.GetAllRotations | app/utils/tetrominos.ts:86-96 | four shapes: the first is the base shape, and each next one is the rotation of the one before |
| Tetrominos.OrientationsKeepBlocks | app/utils/tetrominos.ts:86-96 | every orientation has the base shape's filled-cell count, and stays 0/1 |
| Tetrominos.OrientationsCycle | app/utils/tetrominos.ts:86-96 | rotating orientation k gives orientation k+1 mod 4 |
| Tetrominos.RotationsShapes | app/utils/tetrominos.ts:86-96 | every orientation of every tetromino is rectangular, 0/1, with four filled cells |
| Tetrominos.RotationsCycle | app/utils/tetrominos.ts:86-96 | a tetromino's orientations form a rotation cycle of length four |
| GameHelpers.EmptyRow | app/utils/gameHelpers.ts:11-18 | a row of BOARD_WIDTH empty transparent cells |
| GameHelpers.EmptyBoard | app/utils/gameHelpers.ts:11-18 | BOARD_HEIGHT rows of BOARD_WIDTH cells, each unfilled and `transparent` |
| GameHelpers.EmptyBoardHasNoFilledCells | app/utils/gameHelpers.ts:11-18 | the empty board has no filled cell |
| GameHelpers.IsValidPosition | app/utils/gameHelpers.ts:21-45 | true exactly when every filled cell of the shape is inside the side walls, above the floor, and not on a filled board cell when its row is on the board (rows above the board are allowed) |
| GameHelpers.FitsAboveFloor | app/utils/gameHelpers.ts:21-45 | a valid position of a shape with a block is above the floor |
| GameHelpers.Merged | app/utils/gameHelpers.ts:48-71 | the merged board is again BOARD_HEIGHT × BOARD_WIDTH |
| GameHelpers.MergePieceToBoard | app/utils/gameHelpers.ts:48-71 | the copying loop returns a new board equal to `Merged`; the input board is a value and is unchanged |
| GameHelpers.MergedCells | app/utils/gameHelpers.ts:48-71 | an on-board cell covered by the piece becomes filled with the piece's colour; every other cell is the input's (cells of the piece off the board are dropped) |
| GameHelpers.KeptRowsCount | app/utils/gameHelpers.ts:74-89 | the kept rows and the full rows together are all the rows |
| GameHelpers.Cleared | app/utils/gameHelpers.ts:74-89 | `linesCleared` is the number of full rows; the result has BOARD_HEIGHT rows; the top `linesCleared` rows are empty; below them come the non-full rows in their original order |
| GameHelpers.ClearLines | app/utils/gameHelpers.ts:74-89 | the `unshift` loop computes `Cleared` |
| GameHelpers.ClearedFilled | app/utils/gameHelpers.ts:74-89 | clearing removes exactly BOARD_WIDTH filled cells per cleared line |
| GameHelpers.ClearedNoFullRows | app/utils/gameHelpers.ts:74-89 | no row of the result is full |
| GameHelpers.ClearedUnchanged | app/utils/gameHelpers.ts:74-89 | a board with no full row comes back as it is, with zero lines |
| GameHelpers.ClearedIdempotent | app/utils/gameHelpers.ts:74-89 | clearing a cleared board changes nothing and clears zero lines |
| GameHelpers.DropFrom | app/utils/gameHelpers.ts:92-108 | the landing row is at or below the start, every row passed on the way is valid, and the next row down is not |
| GameHelpers.DropFromResting | app/utils/gameHelpers.ts:92-108 | a piece that cannot move down lands where it is |
| GameHelpers.GetGhostPosition | app/utils/gameHelpers.ts:92-108 | the loop keeps x and returns the landing row of `DropFrom` |
| GameHelpers.ScoreRewardsMoreLines | app/utils/gameHelpers.ts:111-123 | for one to four lines the score is positive, grows with the line count, and four lines score at least four singles |
| GameHelpers.ScoreOutsideTable | app/utils/gameHelpers.ts:111-123 | any other line count scores 0, and no score is negative at a level of 0 or more |
| GameHelpers.LevelMonotone | app/utils/gameHelpers.ts:126-128 | the level never decreases as lines grow, and ten more lines give exactly one more level |
| GameHelpers.SpeedBounds | app/utils/gameHelpers.ts:131-136 | the interval never increases with the level, never drops below 100 ms, is 1000 ms at level 1 and 100 ms from level 19 |
| GameHelpers.StartPositionCentred | app/utils/gameHelpers.ts:139-144 | the start row is -1, and the start column centres the shape, with the right margin equal to the left margin or one more |
| GameHelpers.StartFitsEmptyBoard | app/utils/gameHelpers.ts:147-152 | a shape no wider than the board and at most one row taller than it is never game over on the empty board |
| GameHelpers.EmptyBoardNeverOver | app/utils/gameHelpers.ts:147-152 | no tetromino is game over on the empty board |
| GameHelpers.FirstKickNone | app/utils/gameHelpers.ts:155-184 | the search returns null exactly when no offset fits |
| GameHelpers.FirstKickFirst | app/utils/gameHelpers.ts:155-184 | a found position is the first fitting offset, and every earlier offset misfits |
| GameHelpers.FirstKickFits | app/utils/gameHelpers.ts:155-184 | a returned position is valid for the rotated shape |
| GameHelpers.TryRotate | app/utils/gameHelpers.ts:155-184 | the for-of loop with early return computes `FirstKick` from offset 0 |
| GameHelpers.KickInPlaceFirst | app/utils/gameHelpers.ts:155-184 | there are eight offsets and the first is (0,0); a rotation that fits in place stays in place |
| GameLogic.InitialStateValid | app/hooks/useGameLogic.ts:41-52 | the initial state satisfies `Inv` (so `Consistent`): empty board, no piece, score 0, lines 0, level 1, not playing, not paused, not over |
| GameLogic.CreatePiece | app/hooks/useGameLogic.ts:55-64 | a new piece has the type, colour and base shape of its tetromino, rotation 0, and at least one filled cell |
| GameLogic.CreatePieceOk | app/hooks/useGameLogic.ts:55-64 | a new piece starts at `getStartPosition` and is a valid piece on the empty board |
| GameLogic.CollisionImpliesMisfit | app/hooks/useGameLogic.ts:87-127 | the second, on-board collision scan of spawnPiece can only fire where `isValidPosition` already failed |
| GameLogic.ScanCollision | app/hooks/useGameLogic.ts:103-127 | the nested scan reports a hit exactly when some filled cell of the new piece lies on a visible board row, inside the walls, on a filled cell |
| GameLogic.SpawnedOutcome | app/hooks/useGameLogic.ts:80-135 | spawnPiece ends the game exactly when the next piece is invalid at its start position; otherwise the next piece becomes current and the drawn type becomes next |
| GameLogic.SpawnPiece | app/hooks/useGameLogic.ts:80-135 | the updater with its scanning loops computes `Spawned` |
| GameLogic.LockPiece | app/hooks/useGameLogic.ts:138-189 | the updater with its scanning loops computes `Locked` |
| GameLogic.LockedOutcome | app/hooks/useGameLogic.ts:138-189 | a piece with a block above the board ends the game, and the high score becomes the larger of score and high score. Otherwise the board becomes the cleared merge, lines grow by the number cleared, level follows the new line count, score grows by the score for those lines at the previous level, the piece is gone, and no full row remains |
| GameLogic.LockedOnBoard | app/hooks/useGameLogic.ts:138-189 | a piece with no block above the board is merged, the full rows are cleared, and score, lines and level follow the number of rows cleared; the piece is gone |
| GameLogic.GuardedUpdatersKeepState | app/hooks/useGameLogic.ts:192-372 | without a piece, while paused, or when not playing, the moves, rotate and hard drop return the previous state; lockPiece without a piece does too |
| GameLogic.ShiftedEffect | app/hooks/useGameLogic.ts:192-304 | a move changes the state exactly when the guard passes and the piece fits one step on; it then changes only the piece's position, by exactly that step |
| GameLogic.MovesAreUnitSteps | app/hooks/useGameLogic.ts:192-304 | a successful moveDown, moveLeft or moveRight moves the piece by one cell down, left or right |
| GameLogic.RotatedPieceOk | app/hooks/useGameLogic.ts:307-330 | a rotated valid piece is valid, with rotation (r+1) mod 4 |
| GameLogic.RotateEffect | app/hooks/useGameLogic.ts:307-330 | with no fitting kick the state is unchanged. Otherwise only the piece changes: its shape is the rotation, its position is the `tryRotate` result, and its rotation is (r+1) mod 4 |
| GameLogic.HardDrop | app/hooks/useGameLogic.ts:333-370 | the `dropY++` loop computes `HardDropped` |
| GameLogic.HardDroppedLands | app/hooks/useGameLogic.ts:333-370 | the piece keeps x, lands at a valid row at or below its own, cannot move further down, and the score grows by twice the distance; the board is unchanged |
| GameLogic.SoftDropEffect | app/hooks/useGameLogic.ts:375-383 | the corrected soft drop leaves the state unchanged exactly when the game is stopped or paused; otherwise it adds one point and moves the piece as moveDown does, one row down when that row fits and not at all when it does not |
| GameLogic.TogglePauseEffect | app/hooks/useGameLogic.ts:386-394 | the pause flag flips exactly when playing and not over; nothing else changes; toggling twice restores the state |
| GameLogic.StartResetKeepOnlyHighScore | app/hooks/useGameLogic.ts:397-426 | start and reset depend only on the high score, which they keep; reset gives the stopped initial state and start the same state playing with the drawn next piece |
| GameLogic.HardDropKeyEffect | app/hooks/useGameLogic.ts:333-372 | the corrected hard-drop key does nothing in a stopped or paused game; in a running game with a piece it locks the piece at the row where it cannot move further down, then spawns unless the lock ended the game; in a running game with no piece yet (the start delay of app/hooks/useGameLogic.ts:409) it spawns, exactly as the program does |
| GameLogic.SpawnIfRunningEffect | app/hooks/useGameLogic.ts:80-135 | the corrected spawn leaves an ended game (which has no piece) alone and otherwise is spawnPiece; after it, a game that is over has no piece |
| GameLogic.EndGameValid | app/hooks/useGameLogic.ts:90-98 | ending a game from a `Consistent` state gives `Inv` (no piece) and sets the high score to the larger of score and high score |
| GameLogic.LockedValid | app/hooks/useGameLogic.ts:138-189 | locking a `Consistent` state gives `Inv`: no piece is left, the cleared board has no full row, and score, lines and high score do not go down |
| GameLogic.SpawnedValid | app/hooks/useGameLogic.ts:80-135 | spawnPiece as written keeps `Consistent`, even in an ended game; from a running game satisfying `Inv` it keeps `Inv` |
| GameLogic.SpawnIfRunningValid | app/hooks/useGameLogic.ts:80-135 | the corrected spawn keeps `Inv` |
| GameLogic.ShiftedValid | app/hooks/useGameLogic.ts:192-304 | every move keeps `Consistent` and keeps `Inv` |
| GameLogic.RotateValid | app/hooks/useGameLogic.ts:307-330 | rotate keeps `Consistent` and keeps `Inv` |
| GameLogic.SoftDropValid | app/hooks/useGameLogic.ts:375-383 | the soft drop as written keeps `Consistent`, and the corrected one keeps `Inv` |
| GameLogic.HardDropKeyValid | app/hooks/useGameLogic.ts:333-372 | the corrected hard-drop key keeps `Inv` and never lowers score or lines, with or without a current piece |
| GameLogic.HardDropKeyAsWrittenValid | app/hooks/useGameLogic.ts:333-372 | the hard-drop key as written (drop, then the unguarded lock and spawn) keeps `Consistent` |
| GameLogic.DropLockSpawnLosesNothing | app/hooks/useGameLogic.ts:333-372 | dropping, locking and spawning, with or without the game-over guard on the spawn, lowers neither score, lines nor high score, and does not revive an ended game |
| GameLogic.StepKeepsInv | app/hooks/useGameLogic.ts:429-482 | with the corrected soft drop, Space key and spawn, every key action and timer callback keeps `Inv`: a well-formed board with no full row, a valid current piece, a non-negative score record, a level that matches the lines, and an ended game stopped with no piece |
| GameLogic.StepMonotone | app/hooks/useGameLogic.ts:429-482 | in the corrected game no step lowers the high score; apart from start and reset, no step lowers score or lines or revives a finished game |
| GameLogic.StepAsWrittenKeepsConsistent | app/hooks/useGameLogic.ts:429-482 | with the updaters as written, every key action and timer callback keeps `Consistent`: all of `Inv` except that an ended game may hold a piece |
| GameLogic.StepAsWrittenMonotone | app/hooks/useGameLogic.ts:429-482 | with the updaters as written no step lowers the high score; apart from start and reset, no step lowers score or lines or revives a finished game |
| Lobby.IndexOf | party/index.ts:209 | `indexOf`: -1 exactly when absent; otherwise the first position holding the id |
| Lobby.OpponentIndexSeats | party/index.ts:63 | "indexOf is 0 ? 1 : 0" names seat 1 for seat 0 and seat 0 for seat 1 and for a non-member; a member's opponent seat is never its own |
| Lobby.WithoutEntry | party/index.ts:53 | deleting a queue entry keeps exactly the other entries, in order |
| Lobby.WithoutEntryLength | party/index.ts:173-179 | deleting an absent id leaves the queue as it is; deleting a present id shortens it by one; ids stay distinct |
| Lobby.Without | party/index.ts:92 | removing a connection keeps exactly the others |
| Lobby.WithoutDistinct | party/index.ts:92 | removal keeps the connections distinct and shortens them by one exactly when the connection was there |
| Lobby.Decimal | party/index.ts:148 | the decimal text of a number is digits only, with no leading zero |
| Lobby.DecimalRoundTrip | party/index.ts:148 | reading the decimal text back gives the number |
| Lobby.QueueNickname | party/index.ts:148 | a non-empty nickname is used as given; an absent or empty one becomes `GRACZ_` followed by the number |
| Lobby.QueueJoinKept | party/index.ts:134-158 | a connected player who is in neither the queue nor a room may join, and the queue invariant then holds with bound 2 |
| Lobby.QueueLeft | party/index.ts:173-179 | leaving the queue keeps the queue invariant |
| Lobby.QueueClosed | party/index.ts:48-96 | closing a connection and dropping its queue entry and mapping keeps the queue invariant |
| Lobby.QueueOpened | party/index.ts:265-274 | matchmaking on a full queue takes two distinct, connected players who are in no room, and leaves the queue empty |
| PartyServer.EndReason | party/index.ts:222-231 | `time_limit` gives the time-limit text; any other reason gives "<loser> przegrał" |
| PartyServer.PositionsNumbered | party/index.ts:340-349 | the queue positions are 1..n in queue order, one to each queued connection |
| PartyServer.Broadcast | party/index.ts:444-449 | one message to each connection, in order |
| PartyServer.RoomAdded | party/index.ts:277-287 | adding a well-formed room under a fresh id and mapping its two players keeps the room, mapping and timer invariants |
| PartyServer.RoomRemoved | party/index.ts:83-84 | deleting a room and the mappings of all its players keeps the room, mapping and timer invariants |
| PartyServer.TetrisServer.constructor | party/index.ts:28-34 | the server starts valid and with everything empty |
| PartyServer.TetrisServer.OnConnect | party/index.ts:36-46 | the connection is added once; it receives the online count, then everyone does; nothing else changes |
| PartyServer.TetrisServer.OnClose | party/index.ts:48-96 | the connection leaves the queue, its own mapping and the connection set, and rooms stay. The outbox gets, in order, the resent positions if it was queued, `opponent_disconnected` to a connected opponent, and the online count to everyone left. A 60-second callback is scheduled only when the opponent is still connected |
| PartyServer.TetrisServer.WarnOpponent | party/index.ts:57-89 | the leaver's mapping is deleted; if its room is live, the opponent is told if connected, and the 60-second callback is scheduled only then |
| PartyServer.TetrisServer.DisconnectTimerExpired | party/index.ts:71-86 | the callback acts only if the room still lists the leaver. It then sends the opponent a game-over naming the opponent's own nickname as winner, deletes the room and the mappings of both its players, and stays valid |
| PartyServer.TetrisServer.HandleFindGame | party/index.ts:134-171 | an id already queued or already in a room gets exactly one error and nothing else changes. Otherwise the player joins with the given or `GRACZ_n` nickname, is told position = queue size, positions are resent, matchmaking runs, and a 120-second callback is scheduled. At most one player waits afterwards |
| PartyServer.TetrisServer.Join | party/index.ts:145-170 | a free connection is queued and told its position, positions are resent, matchmaking runs, and the queue callback is scheduled; with a waiting player the two are matched in queue order |
| PartyServer.TetrisServer.StartQueueTimer | party/index.ts:164-170 | the 120-second queue callback is added to the pending timers; nothing else changes |
| PartyServer.TetrisServer.Enqueue | party/index.ts:145-161 | the entry is appended, `queue_joined` carries the new size, positions follow |
| PartyServer.TetrisServer.QueueTimerExpired | party/index.ts:164-170 | the 120-second callback removes the entry and notifies it only if it is still queued; otherwise it does nothing |
| PartyServer.TetrisServer.HandleCancelQueue | party/index.ts:173-179 | an unqueued connection changes nothing; a queued one is removed and positions are resent |
| PartyServer.TetrisServer.HandleGameUpdate | party/index.ts:181-203 | the snapshot goes to the other seat of the sender's room, if that player is connected; no state changes |
| PartyServer.TetrisServer.HandleGameOver | party/index.ts:205-245 | an unknown room or a non-participant changes nothing. Otherwise the sender joins `gameOverPlayers`, and both players (if connected) get a `game_end` naming the other seat's nickname as winner. This repeats on every report |
| PartyServer.TetrisServer.HandleLeaveGame | party/index.ts:247-263 | an unknown room changes nothing; for a live room, only the sender's mapping is deleted and the occupant of the other seat is told if connected, which is seat 0 when the sender is not seated in that room; the room stays |
| PartyServer.TetrisServer.TryMatchmaking | party/index.ts:265-338 | with fewer than two queued nothing happens. Otherwise the two oldest entries leave the queue and a room is created with their ids and nicknames aligned by seat and no game-over players; both are mapped to it, both get `match_found`, and the countdown is scheduled |
| PartyServer.TetrisServer.OpenRoom | party/index.ts:268-286 | the two oldest entries leave the queue, the room is created under the fresh id with their ids and nicknames by seat, and both are mapped to it; nothing is sent |
| PartyServer.TetrisServer.CountdownFinished | party/index.ts:312-337 | a still-live room gets its start time; each player connected at matchmaking gets `game_start` with the other's nickname |
| PartyServer.TetrisServer.UpdateQueuePositions | party/index.ts:340-349 | each queued connection is sent its 1-based position; only the outbox changes |
| PartyServer.TetrisServer.HandleRematchRequest | party/index.ts:351-389 | a participant's request is stored with its time, the other seat is told, and a 10-second callback is scheduled; anything else changes nothing |
| PartyServer.TetrisServer.RematchTimerExpired | party/index.ts:382-388 | the callback rejects only if the same requester is still pending; it then clears the request, tells both players, and schedules the cleanup |
| PartyServer.TetrisServer.HandleRematchAccept | party/index.ts:391-416 | ignored unless a request is pending; otherwise it clears `gameOverPlayers` and the request, sets the start time, and tells each player the other's nickname |
| PartyServer.TetrisServer.HandleRematchReject | party/index.ts:418-442 | clears the request, tells both players, and schedules the room's deletion |
| PartyServer.TetrisServer.CleanupTimerExpired | party/index.ts:438-441 | deletes the room and the mappings of both its players |
| PartyServer.TetrisServer.BroadcastOnlineCount | party/index.ts:444-449 | every connection is sent the number of connections; only the outbox changes |
| PartyServer.TetrisServer.FireTimer | party/index.ts:71-441 | running any pending `setTimeout` callback (the disconnect grace at 71-86, the queue timeout at 164-170, the countdown at 312-337, the rematch timeout at 382-388 and the cleanup at 438-441), in any order, keeps the server valid |
| SocketServer.PositionsNumbered | server.js:85-94 | the queue positions are 1..n in queue order, one emission to each queued socket |
| SocketServer.StaleRooms | server.js:254-264 | a room is swept exactly when it is older than an hour |
| SocketServer.Fresh | server.js:254-264 | the rooms kept are exactly the ones not older than an hour, with their contents unchanged |
| SocketServer.SweepIdempotent | server.js:254-264 | a second sweep at the same time removes nothing and no mapping |
| SocketServer.SweepDropsNewerMapping | server.js:254-264 | a player of a swept room loses their mapping even when it points to a newer room that survives |
| SocketServer.RoomAdded | server.js:34-47 | adding a well-formed room under a fresh id and mapping its two players keeps the room and mapping invariants |
| SocketServer.RoomRemoved | server.js:232-233 | deleting a room and the mappings of all its players keeps the room and mapping invariants |
| SocketServer.IoServer.constructor | server.js:13-15 | the three maps, the sockets, the channels and the logs start empty, and the server is valid |
| SocketServer.IoServer.TryMatchmaking | server.js:23-82 | with fewer than two queued nothing happens. Otherwise the two oldest entries leave the queue, a room with seats and nicknames aligned is created and joined by both, both are mapped to it and get `match_found`, and the countdown is scheduled |
| SocketServer.IoServer.OpenRoom | server.js:26-47 | the first two entries leave the queue, the room is created under the fresh id with their ids and nicknames by seat, and both are mapped to it; nothing is emitted |
| SocketServer.IoServer.CountdownFinished | server.js:74-81 | each player connected at matchmaking gets `game_start` with the other's nickname; only the outbox changes |
| SocketServer.IoServer.UpdateQueuePositions | server.js:85-94 | each queued socket is sent its 1-based position; only the outbox changes |
| SocketServer.IoServer.Connect | server.js:97-98 | the socket is added once and nothing else changes |
| SocketServer.IoServer.FindGame | server.js:101-139 | a socket already queued or in a room gets exactly one error and nothing else changes. Otherwise it joins with the given or `GRACZ_n` nickname, is told position = queue size, positions are resent, matchmaking runs, and a 120-second callback is scheduled |
| SocketServer.IoServer.Join | server.js:114-138 | a free socket is queued and told its position, positions are resent, matchmaking runs, and the queue callback is scheduled; with a waiting socket the two are matched in queue order |
| SocketServer.IoServer.Enqueue | server.js:113-126 | the entry is appended, `queue_joined` carries the new size, positions follow |
| SocketServer.IoServer.QueueTimerExpired | server.js:132-138 | the callback removes the entry and notifies it only if it is still queued; otherwise nothing happens |
| SocketServer.IoServer.CancelQueue | server.js:142-148 | an unqueued socket changes nothing; a queued one is removed and positions are resent |
| SocketServer.IoServer.GameUpdate | server.js:151-166 | the snapshot goes to the members of the sender's room channel except the sender; no state changes |
| SocketServer.IoServer.GameOverReport | server.js:169-183 | for a live room, every channel member gets `game_over` naming the nickname at the other seat; a non-member sender names seat 0's player; no state changes |
| SocketServer.IoServer.LeaveGame | server.js:186-197 | for a live room, the sender leaves the channel and only its own mapping is deleted; the others in the channel are told; the room stays |
| SocketServer.IoServer.Disconnect | server.js:200-240 | the socket leaves every channel, the queue, its own mapping and the sockets, and rooms stay. The outbox gets the resent positions if it was queued, then `opponent_disconnected` to the rest of its room's channel if its room is live; the 60-second callback is scheduled exactly then |
| SocketServer.IoServer.DropSocket | server.js:200-238 | the socket leaves the sockets, every channel, its mapping and the queue; positions are resent exactly when it was queued; rooms stay |
| SocketServer.IoServer.DisconnectTimerExpired | server.js:218-235 | the callback acts only if the room still lists the leaver; it then tells the channel that the other seat won, deletes the room and the mappings of both its players |
| SocketServer.IoServer.SweepRoom | server.js:256-261 | a stale room is deleted with the mappings of its players; a fresh one is left alone |
| SocketServer.IoServer.SweepVisit | server.js:256-262 | one more room is visited: the state becomes the sweep of the visited rooms plus this one |
| SocketServer.IoServer.Sweep | server.js:254-264 | after the loop, the rooms are exactly `Fresh` of the old rooms. The mappings are the old ones minus those of every player of a stale room. Nothing else changes and the server stays valid |
| SocketServer.IoServer.FireTimer | server.js:74-235 | running any pending `setTimeout` callback (the countdown at 74-81, the queue timeout at 132-138 and the disconnect grace at 218-235), in any order, keeps the server valid |

## Left out

- Randomness: `getRandomTetromino` (app/utils/tetrominos.ts:64-67), the room ids (party/index.ts:277, server.js:18-20) and the nickname numbers become parameters. The model requires room ids never to repeat, which the source only makes unlikely.
- The hook layer of `useGameLogic`: the `setInterval` game loop, the lock-delay timer of `checkLock` and the refs. They are modelled only as the actions of `GameLogic.Step` and `GameLogic.StepAsWritten` (gravity, lock delay, spawn timer), which may arrive in any order.
- The high-score persistence in localStorage (app/hooks/useGameLogic.ts:26-37). The high score is a plain field.
- Transport. `send`, `emit`, `join` and the socket.io and PartyKit connection objects become the `outbox` log and the `channels` map. A message to a closed connection is skipped where the source checks, and otherwise is logged but never delivered. A `JSON.parse` failure in `onMessage` drops the message, and the dispatch switch of `onMessage` (party/index.ts:98-132) is the choice of which handler method to call.
- Console logging.
- The `state` field of a socket.io room, which the server never reads.
- The insertion order of the JavaScript `rooms` map. The sweep visits rooms in any order, and its result does not depend on that order.
- Timers: `setTimeout` delays are not modelled. Every pending callback can run at any time, in any order, which includes every real schedule.
- Arbitration the code does not have: there is no grace window at the time limit, no comparison of scores, no tie-break, no `isWinner`, and `game_end` is not sent exactly once. The model follows the code, which names the other seat's nickname as winner and resends on every report.
- Tetrominos.RotateShape: requires a non-empty rectangular shape. For an empty or ragged array the source yields `undefined` entries, which the model does not represent.
- GameHelpers.GetGhostPosition: requires a shape with a filled cell, because the source's loop does not end otherwise.
- GameHelpers.Cleared: requires a BOARD_HEIGHT × BOARD_WIDTH board, because the source indexes with those constants.
- PartyServer.TetrisServer.HandleFindGame: requires the sender to be an open connection, and messages only arrive from open connections. The same holds for SocketServer.IoServer.FindGame and for `OnClose` and `Disconnect`.
- PartyServer.TetrisServer.FireTimer: its own contract only promises validity. The effect of each callback is stated by the handler it runs.
- SocketServer.IoServer.FireTimer: the same as above.

## Findings

| source | as written | input that shows it | evidently intended | confidence | as-written member | corrected member |
|---|---|---|---|---|---|---|
| app/hooks/useGameLogic.ts:375-383 | `softDrop` adds its point with no guard, and the keyboard's down key is blocked only when not playing or over (app/hooks/useKeyboardControls.ts:45), not when paused | a paused game with score s: ArrowDown leaves the piece where it is and the score becomes s+1 | a paused game ignores the down key, as the on-screen down button does (app/components/Controls.tsx:37); a running game scores as written | not executed | GameLogic.SoftDropScoresWhilePaused | GameLogic.SoftDropEffect |
| app/hooks/useGameLogic.ts:333-372 | the Space key runs the `hardDrop` updater, which is guarded, then `lockPiece` and `spawnPiece`, which are not | a paused game with a fresh I piece at (3,-1) on the empty board: Space writes the piece's blocks into row 0 | a paused or stopped game ignores the hard-drop key, as the on-screen drop button does (app/components/Controls.tsx:37); a running game drops, locks and spawns as written | not executed | GameLogic.HardDropLocksWhilePaused | GameLogic.HardDropKeyEffect |
| app/hooks/useGameLogic.ts:188 | `lockPiece` schedules `spawnPiece` even after it has ended the game, and `spawnPiece` does not look at `gameOver` | a T piece resting with its top row above the board: the lock ends the game, then the spawn puts the next piece into the finished game | no new piece once the game is over | not executed | GameLogic.SpawnAfterGameOver | GameLogic.SpawnIfRunningEffect |
