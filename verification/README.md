# KungFu chess: a verified model

KungFu chess is chess without turns. Any number of pieces may be in the air at once; a move takes a
second for every square of distance; a piece may also jump on its own square for a second to catch an
enemy that lands there. A server runs many such games: it pairs players by rating, seats them in rooms,
gives a lost connection 20 seconds, and rates each finished game.

This project models that program and proves what it keeps.

- `Basics`, `Flights`, `MoveRules`, `HeadOn`, `Play`: the game as a state machine on values. `Play.Game`
  holds the board, the pieces (named by index, so that two squares can hold the same piece object), the
  motions in the air, the scores and the result. `Play.Next` is one request, one tick of any length, or
  one forfeit; `Play.Run` is any sequence of them.
- `Occupancy`, `Slicing`, `Traces`, `LandingLaws`, `JumpWindow`, `Census`, `Overwriting`, `Scores`, `Launches`, `Pawns`:
  what holds in every reachable state and over every run. `KingsFall` and `Vanishing` are short games, played from a
  set-up board, in which what those theorems allow for happens.
- `Objects`, `PieceRules`, `Arbiter`, `Engine`, `Adapter`: the same program over mutable pieces, board,
  motions and scoreboard, with its loops. The ghost field `model` of `GameEngine` is the state of the
  value model; `Valid` ties every object to it, so each method is proved to take the model's step.
- `BoardText`, `Readings`, `Openings`, `BoardIO`, `PlayedBoards`: the text format of boards, what its characters mean,
  its two round trips, the game a text sets up, and printing after play.
- `Controller`, `Script`: clicks that choose a piece and a square for it, and scripts that join parser,
  controller, engine and printer end to end.
- `Matchmaking`, `MatchingLaws`, `MatchmakingService`: greedy pairing by rating.
- `Rooms`, `Countdowns`, `GameServer`: rooms, seats, deadlines, forfeits and ratings, on values. `RoomService`,
  `GameTable` and `GameService` are the same over mutable objects; `GameTable` is the dictionary of running games,
  one engine object for each room, no two of which share an object.
- `ServerLaws`, `ServerRuns`, `Ledger`, `Grace`, `Forfeits`, `Elo`: what every run of the server keeps.
- `BackgroundLoop`: one turn of the server's loop, as a run of the server, and when it stops short. `LoneSeat` holds
  short runs of the server, from nobody there, in which what is reported below happens.

Where the program and what is said about it differ, the model follows the program:

- `tests/test_engine.py:12-24` says that no second piece may take off while one is in the air. The engine
  refuses a second launch of the same piece only (`KingsFall.SecondPieceTakesOff`).
- The landing loop goes on after a king has fallen, so with two kings captured in one tick the later
  capture names the winner, and the size of the ticks can decide the game (`Scores.LastCaptureWins`,
  `KingsFall.TicksDecideTheWinner`). `Slicing.TickSlicing` says exactly when slicing does not matter.
- A launch that is dropped because an older motion flies head-on at it leaves its piece MOVING for ever
  (`Launches.StrandedIffBlocked`, `Launches.StrandedForever`; a game: `Vanishing.DroppedLaunchIsOverwritten`).
- Pieces can vanish, in exactly three ways (`Census.MissingIffDisplaced`; a game for each:
  `Vanishing.JumpingKingIsOverwritten`, `Vanishing.BouncedMoverIsLost`, `Vanishing.DroppedLaunchIsOverwritten`).
  A king lost in this way does not end the game.
- A captured mover is skipped by the landing loop; in no reachable state does that happen
  (`Occupancy.GroundedPiecesOwnNothing`).
- `join_room` can start a game; every room has one already, so it never does (`ServerLaws.JoinKeepsFair`).
- `create_room` does not look whether its random room id is taken. The two room indices go on agreeing if
  and only if it is not (`Rooms.CreateKeeps`; a lobby: `Rooms.TakenNameBreaksLobby`).
- A user may queue and then open or join a room by hand. The pass that pairs him then fails and the turn of the
  loop ends before any game is ticked (`BackgroundLoop.SeatedInQueueStopsTheClock`; a run:
  `LoneSeat.StalledTurn`). Everybody stays queued, those included who were given a room in the same pass, so the
  turns after it end in the same way as long as nobody leaves the queue or a room
  (`BackgroundLoop.QueueStaysStuck`); and if somebody was given a room, even when the user who caused it has left
  the queue, because now those two are refused (`LoneSeat.StalledWithoutHim`).
- A game runs before anybody sits opposite. Whoever takes the black seat later is rated for it at the next tick, as
  its winner or its loser, if and only if it was over when he sat down (`Forfeits.RatedIffOverBefore`). White may
  have given it up by being away (`Forfeits.LateJoinerWins`; a run: `LoneSeat.JoinerWins`), or have taken the black
  king unopposed (`LoneSeat.JoinerLoses`).

## Model

| member | source | states |
|---|---|---|
| MoveRules.SlidersWalk | rules/piece_rules.py:13-62 | on a board of any size a rook, bishop or queen reaches exactly the squares at the end of a walk in one of its directions that stays on the board, passes only empty squares and pieces that are MOVING, not those that jump, and does not end on a friend |
| MoveRules.PawnsWalk | rules/piece_rules.py:102-133 | a pawn moves exactly one row straight ahead onto an empty square, two from its home row (white the last but one, black row 1) over and onto empty squares, or one row and one column ahead onto an enemy; white goes to smaller row numbers, black to greater |
| MoveRules.KnightsAndKingsHop | rules/piece_rules.py:65-99 | a knight moves exactly two by one and a king exactly to the squares around it, on the board and not onto a friend |
| PieceRules.ScanRay | rules/piece_rules.py:22-35 | one ray scan, with its early exit, collects exactly the squares the declarative ray rule allows |
| PieceRules.GetStraightMoves | rules/piece_rules.py:13-36 | the four rook scans return exactly the squares on rook rays whose strictly intermediate squares are empty or airborne and whose last square is empty, airborne or an enemy's |
| PieceRules.GetDiagonalMoves | rules/piece_rules.py:39-62 | the same for bishop rays |
| PieceRules.GetKnightMoves | rules/piece_rules.py:65-80 | exactly the knight's squares on the board that hold no friend |
| PieceRules.GetKingMoves | rules/piece_rules.py:83-99 | exactly the neighbouring squares on the board that hold no friend |
| PieceRules.GetPawnMoves | rules/piece_rules.py:102-133 | exactly one step onto an empty square, two from the home row over empty squares, and diagonally forward onto an enemy; airborne pieces block a pawn |
| PieceRules.IsMoveLegal | rules/rule_engine.py:9-39 | accepts a move if and only if the declarative rule for the piece allows it and the target is not a friend or the start itself |
| HeadOn.CourseIsHeadOn | realtime/real_time_arbiter.py:56-111 | the sign-and-difference test holds if and only if the directions are opposite and nonzero and the newer start lies k direction steps down the older route, k from 1 to its row span (column span when it is horizontal) |
| HeadOn.JumpsNeverCollide | realtime/real_time_arbiter.py:76-79 | a jump is on a collision course with nothing |
| Flights.SortSorts | realtime/real_time_arbiter.py:137 | both sorts put motions with distinct ids strictly in order and lose none; what the orders are, `Flights.OrdersAre` says by the fields |
| Flights.SortedUnique | engine/game_engine.py:61-63 | the four-part key is total on motions with distinct ids: two sorted lists of the same motions are equal |
| Flights.OrdersAre | realtime/real_time_arbiter.py:137 | what the two sorts put first, by the fields: the arbiter less time left and then the smaller id; the engine then less time left, the shorter flight, a move before a jump, the greater id |
| Occupancy.LandKeepsInv | engine/game_engine.py:65-105 | one landing, whatever branch it takes, keeps the occupancy invariant: no piece on two squares, one pending motion per piece at most, a pending motion's piece in the air and on the motion's start if on the board, captured pieces off the board |
| Occupancy.GroundedPiecesOwnNothing | engine/game_engine.py:65-67 | idle and captured pieces own no pending motion, so the skip for captured movers never runs |
| Occupancy.LandEffect | engine/game_engine.py:65-105 | which statuses and squares one landing changes, branch by branch; every other piece keeps its record, no other piece comes to a square, and every square but the start of the mover and, if it settles, its end keeps its piece |
| Occupancy.NextKeeps | engine/game_engine.py:17-105 | every request, tick and forfeit keeps the occupancy invariant |
| Occupancy.OccupancyHolds | engine/game_engine.py:17-105 | the occupancy invariant holds in every state reachable from a set-up board |
| Traces.InvAtEveryLanding | engine/game_engine.py:65-105 | it holds at every point inside the landing loop of every run |
| Slicing.LandingsSplit | engine/game_engine.py:58-65 | the landings of a tick of a+b are those of a tick of a followed by those of a further tick of b, in the same order |
| Slicing.TickSlicing | engine/game_engine.py:50-105 | ticking a and then b leaves the very state of one tick of a+b if and only if b is 0, the game was over, the first tick does not end it, or it leaves nothing in the air |
| Slicing.ManyTicks | engine/game_engine.py:50-105 | any number of ticks equals one tick of their sum, provided the game was not over before the last of them |
| Traces.LandingOrder | engine/game_engine.py:58-65 | over a whole run, with launches in between, landings are strictly in the landing order by absolute arrival time; what that order is, `LandingLaws.WhoLandsFirst` says by the fields |
| LandingLaws.WhoLandsFirst | engine/game_engine.py:61-63 | the same in terms of the fields: of two landings of a run the one with the earlier arrival comes first; of equal arrivals the shorter flight; of equal flights the move before the jump; and of all that equal, the one stands earlier if and only if its id is greater |
| LandingLaws.EqualFlights | engine/game_engine.py:58-98 | two movers reach one empty square at the same moment after equal flights: of two enemies the one launched first ends on it, idle, and the other is captured; of two friends the one launched last ends on it and the other goes back |
| LandingLaws.WhatAMoverFinds | engine/game_engine.py:65-98 | where a mover lands by what stands there: on an empty square, a friend in the air or an enemy in flight it takes the square; an idle friend sends it back; an idle enemy is captured; an enemy that jumps captures it |
| LandingLaws.LandTypes | engine/game_engine.py:100-105 | one landing changes the type and label of a piece if and only if it is a pawn that completes its move, by arriving or taking, on row 0 if white and on the last row if black; then it is a queen labelled wQ or bQ; no piece changes colour |
| LandingLaws.RunTypes | engine/game_engine.py:100-105 | over any run a piece keeps type and label unless some landing was such a one of its own, and is then a queen of its colour, labelled so |
| Traces.AloftUntilArrival | realtime/real_time_arbiter.py:120-139 | a motion is active exactly while its arrival time is later than the clock |
| Traces.LandsIffDue | engine/game_engine.py:58-65 | over a whole run a motion in the air is resolved if and only if the clock reaches its arrival time, and never twice |
| JumpWindow.JumpProtects | engine/game_engine.py:25-93 | for a jump that ends at E and an enemy landing on the jumper where it stands: due before E, the mover is captured and the jumper untouched; due exactly at E, the mover is captured if and only if it flew for at most 1000 ms, and captures the jumper if and only if it flew longer; due later, it captures the piece if that stands idle there; however time is sliced |
| Census.LandCensus | engine/game_engine.py:65-98 | in one landing, exactly the pieces displaced by one of the three kinds of event stop being on the board, captured or owner of a motion |
| Census.LaunchCensus | engine/game_engine.py:17-48 | requests, accepted, refused or dropped, neither lose a piece nor bring one back |
| Census.RunCensus | engine/game_engine.py:17-105 | over any run a piece is accounted for at the end if and only if it was at the start and no landing displaced it |
| Census.MissingIffDisplaced | engine/game_engine.py:17-105 | in a game played from the start a piece is missing if and only if some landing displaced it |
| Census.JumperOverwrittenByFriend | engine/game_engine.py:71-98 | while its jump is pending, a landing takes a piece off its square only if it is a friend's landing on it |
| Overwriting.LostIffOverwritten | engine/game_engine.py:71-98 | over a whole run, a piece is lost when its jump ends if and only if, since it jumped, some friend has landed on its square while it stood there |
| Vanishing.DroppedLaunchIsOverwritten | realtime/real_time_arbiter.py:25-54 | a game from a set-up board in which an accepted move is dropped, its piece is stranded, and the older motion then lands on it: it is not on the board, not captured and not in the air |
| Vanishing.JumpingKingIsOverwritten | engine/game_engine.py:71-98 | a game from a set-up board in which a jumping king is overwritten by its own rook and is gone when the jump ends, uncaptured, with the game going on |
| Vanishing.BouncedMoverIsLost | engine/game_engine.py:83-87 | a game from a set-up board in which a rook bounces off a friend after an enemy took the square it left, and is gone |
| Scores.CapturedForever | engine/game_engine.py:66-105 | capture is permanent and the record of a captured piece, its type included, never changes |
| Scores.ScoresAreLosses | engine/scoreboard.py:26-34 | in every reachable state each side has 1 point for every captured pawn of the opponent, 3 for a knight or bishop, 5 for a rook, 9 for a queen and none for a king, by the type it had when captured |
| Scores.OverIffKingTaken | engine/game_engine.py:79-93 | without a forfeit the game is over if and only if some king is captured, and then the winner is the opponent of a captured king |
| Scores.NothingAfterTheEnd | engine/game_engine.py:18-56 | once over, no request, tick or forfeit changes anything in the state |
| Scores.LastCaptureWins | engine/game_engine.py:65-93 | the last king capture of a tick names the winner, and any ends the game |
| KingsFall.TicksDecideTheWinner | engine/game_engine.py:50-93 | a concrete game, played from a set-up board, that white wins when ticked up to the first king capture and black wins when ticked past both |
| KingsFall.SecondPieceTakesOff | engine/game_engine.py:34-48 | a concrete state with a piece in the air in which a second piece may take off and the airborne one may not |
| Launches.AcceptanceIgnoresTheAir | engine/game_engine.py:34-42 | whether a request is accepted does not depend on the motions in the air |
| Launches.WhoTakesOff | engine/game_engine.py:17-48 | a jump is accepted if and only if the game is on and an idle piece stands there, a move if and only if it is also legal; an accepted jump marks the piece JUMPING, appends one motion of 1000 ms over its square and changes nothing else |
| Launches.BlockedIffMeets | realtime/real_time_arbiter.py:43-54 | a launch is dropped if and only if some active motion meets it head-on in plain geometry |
| Launches.NextKeepsNoneHeadOn | realtime/real_time_arbiter.py:25-54 | a request leaves the list of motions as it is or appends exactly one motion with the next id, and no active motion is head-on with an older one |
| Launches.RunKeepsNoneHeadOn | realtime/real_time_arbiter.py:25-111 | in every reachable state no active motion is on a collision course with an older one |
| Launches.StrandedIffBlocked | realtime/real_time_arbiter.py:25-54 | an accepted move leaves its piece MOVING with no motion if and only if an older motion is head-on with it |
| Launches.StrandedForever | realtime/real_time_arbiter.py:25-54 | such a piece stays so in every run: it is never captured, never changes, and never reaches another square |
| Pawns.LandUsesRows | engine/game_engine.py:95-105 | a landing never raises the total distance of the pawns to promotion, and a completed pawn landing lowers it |
| Pawns.RunUsesRows | rules/piece_rules.py:102-133 | over any run the number of completed pawn landings plus the distance left is at most the distance at the start |
| Pawns.PawnProgress | engine/game_engine.py:100-105 | if no pawn starts on its promotion row none ever rests there, and the completed pawn landings of a run are bounded by the initial distance |
| Objects.Board.SetPiece | model/board.py:15-20 | storing a piece replaces the entry of one square, storing none removes it, and no other square changes |
| Objects.Scoreboard.AddCapturePoints | engine/scoreboard.py:26-34 | the capturer's score alone rises, by the value of the captured type, and is returned |
| Objects.Scoreboard.AddMove | engine/scoreboard.py:17-25 | the mover's list alone gains the text at its end, and is returned |
| Readings.MoveLine | engine/game_engine.py:46 | the line of a move is the large letter of the type and the two squares, row and column in plain decimal |
| Readings.JumpLine | engine/game_engine.py:26 | the line of a jump likewise |
| Arbiter.RealTimeArbiter.StartJump | realtime/real_time_arbiter.py:11-24 | appends exactly one new motion with the next id that starts and ends on the square; the piece is JUMPING |
| Arbiter.RealTimeArbiter.StartMotion | realtime/real_time_arbiter.py:25-41 | appends exactly the new motion, or leaves the list as it was when an older motion is on a collision course; the piece is MOVING either way |
| Arbiter.RealTimeArbiter.ResolveCommonRouteCollision | realtime/real_time_arbiter.py:43-54 | the scan finds a collision if and only if some older motion is on a collision course with the new one |
| Arbiter.RealTimeArbiter.AdvanceTime | realtime/real_time_arbiter.py:120-139 | every motion ages in place; those that run out leave the list and are returned sorted, the others stay in order |
| Arbiter.SortMotions | engine/game_engine.py:61-63 | the sort over motion objects orders their values as the value model does and keeps every object once |
| Engine.GameEngine.constructor | engine/game_engine.py:9-15 | an engine over a set-up board is in an initial state of the model |
| Engine.GameEngine.HandleJumpRequest | engine/game_engine.py:17-28 | over the objects, takes the model's jump step, answers whether it was accepted, and then adds one line to the list of the jumper's side and none otherwise |
| Engine.GameEngine.HandleMoveRequest | engine/game_engine.py:29-48 | over the objects, takes the model's move step, answers whether it was accepted, and then adds one line to the list of the mover's side, even if the launch is dropped, and none otherwise |
| Engine.GameEngine.CatchMover | engine/game_engine.py:75-81 | over the objects, captures the mover for the jumper, and lifts it off its start only if that very piece object still stands there |
| Engine.GameEngine.TakeTarget | engine/game_engine.py:88-93 | over the objects, captures the idle enemy on the target square and clears the square |
| Engine.GameEngine.SettleMotion | engine/game_engine.py:95-105 | over the objects, the mover lands idle, leaves its start if it is still on it, takes the end, and is promoted if due |
| Engine.GameEngine.LandMotion | engine/game_engine.py:65-105 | one pass of the landing loop over the objects takes the model's landing step |
| Engine.GameEngine.UpdateGameClock | engine/game_engine.py:50-105 | the clock with both sorts and the landing loop over the objects takes the model's tick |
| Adapter.PlayerMovesAreTimely | Server/infrastructure/game/engine_adapter.py:23-54 | an accepted move takes at least 1000 ms, so it is timely; it launches a piece of the caller's colour and changes no other piece |
| Adapter.PlayerMovesTakeTheirTime | Server/infrastructure/game/engine_adapter.py:23-54 | an accepted move that is not dropped appends exactly one motion, from its start to its end, with 1000 ms of flight and left to fly for every square of distance, the greater of the two differences: 2000 for a knight, 1000 for a king; a dropped one appends none |
| Adapter.StepsAreSeconds | Server/infrastructure/game/engine_adapter.py:23-26 | k squares in any of the eight directions take exactly 1000 * k ms |
| Adapter.RepliesAre | Server/infrastructure/game/engine_adapter.py:35-54 | each of the four answers exactly when it is due: game over before not your piece before illegal; accepted if and only if the game is on and an idle piece of the colour may make the move; a refused move changes nothing |
| Adapter.KungFuEngineAdapter.TryPlayerMove | Server/infrastructure/game/engine_adapter.py:35-54 | over the objects, makes the coloured move of the model or refuses it with the right reason |
| Adapter.KungFuEngineAdapter.UpdateGameClock | Server/infrastructure/game/engine_adapter.py:56-57 | over the objects, takes the model's tick |
| Adapter.KungFuEngineAdapter.ForceForfeit | Server/infrastructure/game/engine_adapter.py:62-66 | sets the winner of a running game and ends it, and does nothing to a finished one |
| Adapter.KungFuEngineFactory.Create | Server/infrastructure/game/engine_adapter.py:100-105 | a new engine of new objects only, whose game shows the board in the file with every piece idle, or the fault of the file |
| BoardText.PrintParse | chess_io/board_printer.py:6-16 | parsing the printed lines of a printable board gives the same dimensions and the same piece on every square, back on the ground |
| BoardText.ParsePrint | chess_io/board_parser.py:9-45 | printing a parsed board gives back the words of every line |
| BoardText.ParseAccepts | chess_io/board_parser.py:19-39 | a text is accepted if and only if every line has as many words as the first and every word is a dot or names a piece |
| BoardText.FirstFault | chess_io/board_parser.py:20-39 | the fault reported is that of the first bad line: a wrong number of words, or else a word that names no piece |
| BoardText.ParsedPrintable | chess_io/board_parser.py:41-43 | every parsed board is printable and all its pieces are idle |
| BoardText.SplitJoin | chess_io/board_parser.py:14-21 | splitting a line of words joined by single spaces gives the words back |
| Readings.LineGrows | chess_io/board_printer.py:6-16 | a printed line holds its words in order with one space between any two |
| Readings.ShortTokenIs | chess_io/board_parser.py:32-42 | a token without an underscore names a piece of a colour and type if and only if it is two letters, w or b and K, Q, R, B, N or P, each large or small |
| Readings.LongTokenIs | chess_io/board_parser.py:28-42 | a token with underscores does so if and only if its first part is a small w or b and its second the letter of the type, large or small, whatever follows |
| Readings.SpacesAre | chess_io/board_parser.py:21 | the characters at which a line is split into words, one by one |
| Readings.StripIs | Server/infrastructure/game/board_loader.py:28 | white space on both sides of a text is taken off, and nothing else |
| BoardIO.ParseInitialBoard | chess_io/board_parser.py:9-45 | the nested loops over board and piece objects build the parsed board out of fresh pieces, each on exactly one square, or report the first fault |
| BoardIO.InputTxtBoardLoader.Load | Server/infrastructure/game/board_loader.py:22-38 | over the lines of the file, parses the board section as it stands, or reports its first fault |
| BoardText.SectionRead | Server/infrastructure/game/board_loader.py:27-38 | a board between its two markers is read line for line, whatever follows |
| Readings.BoardSection | Server/infrastructure/game/board_loader.py:25-37 | the board of a file is the lines after the line "Board:" and before one that begins with "Commands:", without the blank ones, whatever stands before and after |
| Readings.NoSection | Server/infrastructure/game/board_loader.py:25-37 | a file in which the second marker comes first, or the first never, has no board |
| Openings.OpeningShows | chess_io/board_parser.py:17-43 | the game numbered row by row from a board shows that very board |
| Openings.OpeningIsInitial | engine/game_engine.py:9-15 | a text that can be read sets up a game: every piece idle, on exactly one square of the board, nothing in the air, no score |
| BoardIO.PrintBoard | chess_io/board_printer.py:6-16 | the nested loops print the lines of the value model |
| PlayedBoards.RunKeepsLabels | engine/game_engine.py:101-105 | in every run each piece's label denotes its current colour and type, also after promotion |
| PlayedBoards.PlayedBoardReadsBack | chess_io/board_printer.py:6-16 | parse a board, play any run, print it, parse it again: the same dimensions and the same label, colour and type on every square |
| Controller.ClickAsksOnce | controller/controller.py:41-70 | a click asks the game for a jump if and only if it is on the chosen square, for a move if and only if it is on another square of the board that holds no friend and the chosen one holds a piece, with 1000 ms for every square of distance, and for nothing otherwise |
| Controller.ClickChooses | controller/controller.py:41-70 | what is chosen after a click: nothing changes off the board; the first click chooses a piece, the second a friend instead, and any other ends the choice |
| Controller.SquareUnder | controller/board_mapper.py:16-25 | a pixel belongs to the square of the board whose column starts at most 99 pixels left of it and whose row starts at most 99 above it, and to no other |
| Controller.Controller.Click | controller/controller.py:41-70 | over the objects, takes the step of the model: choose, choose again, jump, move or forget |
| Script.PlayedIsRun | texttests/script_runner.py:44-71 | whatever a script clicks, the game is a run of the model from the opening, and a timely one if no wait is negative |
| Script.ScriptReadsBack | texttests/script_runner.py:15-71 | every board a script prints reads back as the board the game had at that moment, the pieces in the air on the ground again |
| Script.RunScript | texttests/script_runner.py:33-71 | over the objects, from the lines of the board and the commands as read: a bad board is reported; otherwise parser, controller, engine and printer give the pages of the value model, and each page reads back |
| Matchmaking.MatchPass | Server/infrastructure/matchmaking/worker.py:49-93 | the index loop with its used set yields exactly the pairs of "pair the head with the first later entry within 100, drop both, repeat", in that order, and removing the used users leaves that recursion's remainder |
| Matchmaking.FindMatch | Server/infrastructure/matchmaking/worker.py:58-65 | the inner loop finds the first later unused entry in the window, or that there is none |
| MatchingLaws.Conservation | Server/infrastructure/matchmaking/worker.py:49-93 | paired and left-over entries together are the queue, with multiplicities |
| MatchingLaws.PairsCompatible | Server/infrastructure/matchmaking/worker.py:63 | the ratings of every pair are at most 100 points apart |
| MatchingLaws.PairsDisjoint | Server/infrastructure/matchmaking/worker.py:51-71 | no user is in two pairs |
| MatchingLaws.Maximal | Server/infrastructure/matchmaking/worker.py:49-93 | any two left-over entries are more than 100 points apart |
| MatchingLaws.OldestFirst | Server/infrastructure/matchmaking/worker.py:53-68 | the longest waiting player has white against the first in the queue within 100 points, and stays if and only if there is none |
| MatchingLaws.LeftoverBound | Server/application/matchmaking_service.py:10 | with ratings in [lo, hi] at most (hi - lo) / 101 + 1 players remain |
| MatchingLaws.HalfOfBest | Server/infrastructure/matchmaking/worker.py:49-93 | no other way of pairing the queue makes more than twice as many pairs |
| MatchingLaws.ArrivalsKeepPairs | Server/infrastructure/matchmaking/worker.py:51-71 | whoever is paired stays paired with the same partner however many more players queue behind |
| MatchmakingService.TickLaws | Server/application/matchmaking_service.py:44-118 | after a tick everyone still queued has waited less than 60 seconds and is more than 100 points from everybody else there; pairs are within 100 points; whoever has waited 60 seconds or more is told so; together they are the old queue |
| MatchmakingService.MatchmakingService.Enqueue | Server/application/matchmaking_service.py:28-34 | appends a user exactly if he is not queued yet |
| MatchmakingService.MatchmakingService.Cancel | Server/application/matchmaking_service.py:36-39 | removes the user, keeps the order, and tells whether he was queued |
| MatchmakingService.MatchmakingService.IsQueued | Server/application/matchmaking_service.py:41-42 | tells whether the user is in the queue |
| MatchmakingService.MatchmakingService.ExpireTimeouts | Server/application/matchmaking_service.py:48-62 | over the queue, removes the timed-out entries and no other, tells them in order, and keeps the order of the others |
| MatchmakingService.MatchmakingService.TryMatch | Server/infrastructure/matchmaking/worker.py:49-93 | the pass over a snapshot announces the pairs of the recursion and leaves its remainder |
| MatchmakingService.MatchmakingService.Tick | Server/infrastructure/matchmaking/worker.py:28-47 | expiry first, then one pass over those who remain |
| GameService.ServerRuntime.TryMatch | Server/application/matchmaking_service.py:64-118 | over the objects of queue, rooms and games: the pairs of the recursion get their rooms in order until one is refused; if none is, the remainder stays queued, otherwise everybody does |
| GameService.ServerRuntime.RunOnce | Server/application/server_runtime.py:63-71 | over the objects, one turn of the loop: expiry, matching, then the clock and the scan with its notices, which are reached only if no pair was refused |
| BackgroundLoop.TurnIsRun | Server/application/server_runtime.py:63-71 | a turn prolongs any run of the server by the matches made and, if none was refused, a tick and a scan |
| BackgroundLoop.TurnKeeps | Server/application/server_runtime.py:63-71 | a turn keeps the invariants of rooms, games and history |
| BackgroundLoop.RefusedIffSeated | Server/application/room_service.py:54-56 | the first pair refused a room is the first with a user who was in a room before the turn |
| BackgroundLoop.SeatedInQueueStopsTheClock | Server/application/server_runtime.py:63-71 | a turn stops short if and only if some pair has a user who is in a room already; then no game moves and nothing is rated |
| BackgroundLoop.QueueStaysStuck | Server/application/matchmaking_service.py:64-118 | after such a turn some pair is refused at every later one, whoever else enters the queue, as long as nobody leaves it or a room |
| LoneSeat.StalledTurn | Server/application/matchmaking_service.py:64-118 | a run of the server after which a seated user is queued with another: the turn leaves a game with a motion in the air as it was, though a tick would change it |
| LoneSeat.StalledWithoutHim | Server/application/matchmaking_service.py:64-118 | a queue of two pairs of which the second is refused: when the seated user has left the queue, the next turn still stops, at the pair that has just got its room |
| Rooms.CreateKeeps | Server/application/room_service.py:34-49 | creating a room keeps the lobby invariant if and only if it is refused or the room id is new |
| Rooms.TakenNameBreaksLobby | Server/application/room_service.py:34-49 | a lobby in order that a room name drawn twice puts out of order |
| Rooms.CreateMatchedKeeps | Server/application/room_service.py:51-73 | creating a matched room keeps it if and only if it is refused or the two users differ |
| Rooms.JoinKeeps | Server/application/room_service.py:75-99 | joining keeps it: the newcomer takes the next seat in the order of entry, or looks on |
| Rooms.DisconnectKeeps | Server/application/room_service.py:122-140 | a lost connection keeps it, whether a player keeps the seat or a viewer leaves |
| Rooms.SeatsGiven | Server/application/room_service.py:34-99 | who creates has white, of a matched pair the first has white and the second black, who joins has black if it is free and looks on otherwise |
| Rooms.FirstToJoin | Server/application/room_service.py:82-97 | whoever joins a room in which there is nobody has white, is on the line and starts its game |
| Rooms.RefusalsAre | Server/application/room_service.py:34-99 | who is refused a room and why: whoever is a member of one, whoever names one that does not exist or, for a new one, one that does; which reason comes first; and a refusal changes nothing |
| Rooms.EntryKeepsLines | Server/application/room_service.py:34-99 | whoever enters a room is in it and on the line, and nobody else enters or leaves |
| Rooms.NextRoleIs | Server/application/room_service.py:82-91 | counting the players in a room always yields the role that belongs to the next place in the order of entry |
| Rooms.SeatsAre | Server/application/room_service.py:34-99 | the order of entry implies one white player, at most one black one, and no viewer while black is free |
| Rooms.HolderIs | Server/application/room_service.py:108-120 | the scan for the two players finds the first two to have entered |
| Rooms.DisconnectDeadline | Server/application/room_service.py:132-133 | a player who loses the connection at t has the deadline t + 20 seconds, a viewer none, and nobody else's changes; the user is off the line and nobody else is |
| Rooms.ReconnectDeadline | Server/application/room_service.py:142-155 | coming back clears one's own deadline and puts one on the line again; nothing of anybody else's changes |
| Rooms.ToldAre | Server/application/server_runtime.py:44-61 | when a player loses the connection everyone in the room is told, and of a viewer nobody |
| Rooms.ExpiredIs | Server/application/room_service.py:166-179 | the scan finds exactly the members whose deadline has come |
| Rooms.OverdueInOrder | Server/application/room_service.py:166-179 | the overdue are listed in the same order |
| Rooms.FirstExpired | Server/application/room_service.py:168-178 | of a room with both players overdue, white is listed first |
| RoomService.RoomObject.CountPlayers | Server/application/room_service.py:82-91 | counting the seated members over the objects gives the number of players |
| RoomService.RoomService.CreateRoom | Server/application/room_service.py:34-49 | over the objects, takes the lobby's step, overwriting a room of the same name, or refuses it with the right reason; the indices go on agreeing if and only if it is refused or the name is new |
| RoomService.RoomService.CreateMatchedRoom | Server/application/room_service.py:51-73 | the same for a matched pair; the indices go on agreeing if and only if it is refused or the users differ |
| RoomService.RoomService.JoinRoom | Server/application/room_service.py:75-99 | the same for joining; tells the role, and that a game is to be started exactly if a seat is taken in a room without one |
| RoomService.RoomService.GetRoomPlayers | Server/application/room_service.py:108-120 | the loop over the members finds the holders of the two seats |
| RoomService.RoomService.GetMemberRole | Server/application/room_service.py:101-106 | the role of a member, and none for an unknown room or user |
| RoomService.RoomService.MarkDisconnected | Server/application/room_service.py:122-140 | over the objects, takes the lobby's step and returns the room of a player who keeps a seat |
| RoomService.RoomService.Reconnect | Server/application/room_service.py:142-155 | over the objects, takes the lobby's step and returns the room |
| RoomService.RoomService.ClearDisconnectDeadline | Server/application/room_service.py:157-164 | clears the deadline of that member alone, and does nothing for an unknown room or user |
| RoomService.RoomService.ExpiredDisconnects | Server/application/room_service.py:166-179 | the nested loops list the overdue players room by room, member by member |
| RoomService.RoomService.DisconnectCountdowns | Server/application/room_service.py:181-193 | the nested loops list the countdowns of the absent members room by room, member by member |
| Countdowns.RunningIs | Server/application/room_service.py:181-193 | a countdown runs for exactly the members with a deadline, and shows the whole seconds up to it, or 0 when it has passed |
| Countdowns.RunningInOrder | Server/application/room_service.py:181-193 | countdowns are listed room by room as the rooms were made, and in a room as its members came |
| Countdowns.AnnouncedOnce | Server/application/server_runtime.py:73-91 | a scan announces exactly the running countdowns whose whole seconds differ from those announced last, and a second scan at the same moment announces nothing |
| Countdowns.AllAreTold | Server/application/server_runtime.py:79-91 | each announcement goes to everyone in the room, and nothing else is sent |
| RoomService.RoomService.MarkEloUpdated | Server/application/room_service.py:199-202 | marks that room alone |
| ServerLaws.JoinKeepsFair | Server/application/room_service.py:95-97 | joining never starts a second game, and keeps the server's invariant |
| ServerLaws.JoinStarts | Server/application/room_service.py:95-97 | in a room without a game joining sets one up if and only if a seat is taken and none was started before |
| ServerLaws.ApplyEloKeeps | Server/application/game_service.py:157-200 | rating a finished game adds at most one record, for a room not in the history, with the seated players and the engine's winner |
| ServerLaws.RunKeeps | Server/application/server_runtime.py:44-103 | over any run of comings, goings, moves, ticks and scans: the room indices agree, seats hold, every game is a run of the engine, and the rated rooms are exactly those in the history |
| ServerRuns.RoomsAgree | Server/application/room_service.py:34-140 | after any run a user maps to a room if and only if he is a member of it; each room has one white and at most one black player, and viewers only once both seats are taken |
| ServerRuns.RolesStay | Server/application/room_service.py:75-140 | whoever is in a room at two moments of a run has the same role at both, and a player never loses the seat |
| ServerRuns.RoomsInOrder | Server/application/game_service.py:124-127 | over any run rooms are listed in the order in which they were made, and games are ticked in that order |
| ServerRuns.RatedOnce | Server/application/game_service.py:124-186 | after any run no room and no user is in two records, and every record names the seated players and the winner of the finished game |
| ServerRuns.GamesAreRuns | Server/application/game_service.py:56-136 | every game on the server is reached by a timely run of the engine from the set-up board |
| ServerRuns.OnlyOwnPieces | Server/application/game_service.py:80-101 | a submitted move changes only the game of the mover's own room and only pieces of the mover's colour; viewers change nothing |
| ServerRuns.AnswersAre | Server/application/game_service.py:80-119 | what a user is told who asks for a move: not in a room, a viewer, no game, or what the game answers to white or black by his seat; everyone in the room is told of a move made and nobody of any other |
| Ledger.RunBalances | Server/application/game_service.py:173-186 | after any run each record starts from the ratings its players came with and ends with those they have now, and everyone else's rating is unchanged; what the new ratings are, `Ledger.RecordsAreElo` says |
| Ledger.RecordsAreElo | Server/application/game_service.py:178-185 | in every record of any run, whichever colour won, winner and loser end with the formula applied to the winner's and the loser's rating and the score expected of the winner against the loser |
| Ledger.ColoursDoNotMatter | Server/application/game_service.py:178-182 | swapping the colours of both players and of the winner swaps the two new ratings |
| Ledger.RatingsStayClose | Server/application/game_service.py:178-185 | over any run no rating moves by more than 32 points, no winner loses points, and a game makes or loses one point at most |
| Grace.TickAllEffect | Server/application/game_service.py:124-135 | a server tick moves every game on by 50 ms, and afterwards every finished game between two registered users is rated |
| Grace.GraceEffect | Server/application/server_runtime.py:93-103 | one grace scan, room by room: white overdue means black wins, whether or not black is overdue too; only black overdue means white wins; a finished game stays as it is; a game between two registered users that is given up is rated in the same scan |
| Grace.GraceDeadlines | Server/application/server_runtime.py:93-103 | the scan clears exactly the deadlines that have come |
| Forfeits.DeadlineHistory | Server/application/room_service.py:122-164 | a deadline stands if and only if the history holds a loss of connection by a seated player with neither a return, nor another loss, nor a scan past the deadline since |
| Forfeits.ForfeitIffGraceRanOut | Server/application/server_runtime.py:93-103 | a scan at a moment ends a running game if and only if one of its players lost the connection at some t with t + 20 seconds not later than it, and since then has not come back, has not been lost again, and has seen no scan past the deadline |
| LoneSeat.GivenUp | Server/application/room_service.py:122-179 | a run from nobody there: white loses the connection at 0; a scan before 20 leaves the game exactly as it is, and a scan at 20 or later ends it for black |
| Forfeits.RatedIffOverBefore | Server/application/game_service.py:124-200 | when somebody sits down opposite a lone player, the next tick rates the game as it stood, for the two of them, if and only if it was over before he sat down, however it ended and whoever won |
| Forfeits.LateJoinerWins | Server/application/server_runtime.py:93-103 | so, after a lone player has been made to forfeit, the user who then joins is recorded as the winner at the next tick |
| LoneSeat.JoinerWins | Server/application/room_service.py:34-49 | a run from nobody there in which the joiner of a game given up has won 16 points without a move |
| LoneSeat.JoinerLoses | Server/application/room_service.py:34-49 | a run from nobody there in which a lone player takes the black king and the joiner has lost 16 points without a move |
| GameService.GameService.SubmitMove | Server/application/game_service.py:80-119 | over the objects, makes the move of the server model, gives the right answer, refusals included, and lists everyone in the room to be told of a move made |
| GameService.GameService.TickAll | Server/application/game_service.py:124-135 | the loop over the engine objects takes the server model's tick |
| GameTable.GameTable.Open | Server/application/game_service.py:56-59 | a new engine, apart from all the others, is stored for the room, and no other game changes |
| GameTable.GameTable.MoveInGame | Server/application/game_service.py:67-78 | one engine object makes the player's move and answers; every other game stays as it is, and all still stand apart |
| GameTable.GameTable.TickGame | Server/application/game_service.py:124-127 | one engine object is ticked by 50 ms and every other stays as it is |
| GameTable.GameTable.ForfeitGame | Server/application/game_service.py:154 | one engine object is made to forfeit and every other stays as it is |
| GameService.GameService.ForceForfeit | Server/application/game_service.py:137-155 | over the objects, ends a running game for the other side of a seated player and rates it, and does nothing otherwise |
| GameService.GameService.ApplyElo | Server/application/game_service.py:157-200 | over the objects, takes the rating step of the server model, with all its early returns |
| GameService.GameService.OnRoomCreated | Server/bootstrap/wiring.py:141-144 | sets up a game for a room that has none, and otherwise changes nothing |
| GameService.GameService.CreateRoom | Server/bootstrap/wiring.py:141-155 | creating a room and setting up its engine together take the server model's step, refused exactly to a user in a room; rooms and games go on in order if and only if it is refused or the name is new |
| GameService.GameService.CreateMatchedRoom | Server/bootstrap/wiring.py:141-155 | the same for a matched pair, if and only if it is refused or the users differ |
| GameService.GameService.JoinRoom | Server/bootstrap/wiring.py:141-155 | the same for joining; tells the reason of a refusal, and the role otherwise |
| GameService.GameService.HandleMove | Server/application/game_service.py:67-78 | passes the move to the room's engine object and changes no other, or answers that there is no game |
| GameService.ServerRuntime.OnClientDisconnected | Server/application/server_runtime.py:44-61 | takes the user out of the queue, starts the grace period of a player, and tells everyone in the room; nobody is told of a viewer |
| GameService.ServerRuntime.OnClientReturned | Server/application/session_service.py:43 | a user who logs in again has no deadline any more, and is told his room |
| GameService.ServerRuntime.ProcessDisconnectGrace | Server/application/server_runtime.py:73-103 | first the countdowns whose seconds have changed are announced to everyone in the room; then the loop over the overdue players, listed before the first forfeit, takes the server model's scan, and their countdowns are forgotten |
| Elo.Nearest | Server/domain/elo.py:9-10 | rounding gives the nearest integer and the even one of two equally near |
| Elo.PointsAre | Server/domain/elo.py:6-11 | the new ratings are the integers nearest to the winner's plus, and the loser's minus, 32 times the part of the win that was not expected |
| Elo.GainsAndDrops | Server/domain/elo.py:6-11 | the winner gains 0 to 32 points and the loser drops 0 to 32 |
| Elo.SumIsKept | Server/domain/elo.py:6-11 | the sum of the two ratings is kept if and only if the raw change is not a half or the ratings have the same parity, and is off by one point at most |
| Elo.UpsetsPayMore | Server/domain/elo.py:8-10 | the less a win was expected, the more points change hands |

## Left out

- Animation times, the client's drawing and its replay of motions, which decide nothing.
- `Board.move_piece`, which the program does not call.
- Script.RunScript: the script's sections and commands are taken as read; how the raw text is cut into them, and what a command that is no command does, is not modelled.
- Negative tick lengths; durations that are not positive are left out of the theorems about arrival times, and no accepted move has one.
- Python dictionaries are maps together with the order of their keys where that order is looked at; on the board it is not.
- The text of a printed board is returned as lines instead of being written out.
- `str.lower` is modelled on the characters on which the parser can tell a difference.
- Floating point: `10 ** x` is replaced by any expected score between 0 and 1, and clock readings are reals passed in.
- Random room ids are passed in; the theorems about whole runs take those of `create_room` to be new, and those about a turn of the loop all of them.
- A room id or a user name that is an empty string, and user names altogether; a user is known if he has a rating.
- GameTable.GameTable.Open: the file with the opening is taken to hold a board; that the factory reports one that does not is proved, not what the program does then.
- GameService.GameService.ApplyElo: the message that announces the new ratings is not modelled, nor a history store that fails, which the program logs and ignores.
- GameService.GameService.SubmitMove: the event published to the log is not modelled.
- GameService.GameService.TickAll: the messages that show a finished motion are not modelled.
- GameService.ServerRuntime.OnClientDisconnected: of a message, only who is told and the seconds are modelled; of a countdown's key, the pair of room and user.
- GameService.ServerRuntime.ProcessDisconnectGrace: the countdowns of overdue players are forgotten before their forfeits and not one by one between them, which no caller can see.
- GameService.GameService.ForceForfeit: awaiting a broadcast lets other coroutines run in the program; here every call is one step, and so are a tick, a scan and a matching pass.
- GameService.ServerRuntime.TryMatch: the messages to the two users of a pair are not modelled; users who enter the queue or a room during a pass are not modelled, and the pairs are computed before the first of them is seated.
- Registration of users during a run.
- WebSocket, HTTP, Redis, the databases, sessions, passwords, the gateway and the allocator: plumbing around outside systems.
