# react-native-chess, modelled in Dafny

This project models the game logic of a React Native chess client for
lichess.org. It covers the board component, the puzzle trainer, the two
network screens (against a friend and against the server's engine), the
offline game against a random mover, the countdown clock, and the home
screen's setup dialog and deep links.

The chess rules engine (chess.js) is an oracle (`Chess.Rules`). A game is
its starting FEN plus the history of applied moves. The legal-move list,
check, mate, draw and the 8x8 grid are total functions of that pair.
Move matching follows chess.js 0.10: origin and destination must agree,
and a promoting candidate needs the requested promotion. The side to move
alternates with each applied move.

Each screen keeps its own chess instance, and the board component keeps
another one. They stay in step only through the board's `onMove`
callback. In the model this callback is the move object a board method
returns. The owning screen then passes it to its own `OnMove`, so the
re-entrant paths of the source are kept:
- a timer's move played on the screen's game and then played again through the board's report;
- a random move echoed back through `onMove`.

Timers become explicit queues or counters, and a separate method fires
them. In the puzzle trainer a timer acts on the chess instance that was
current when it was scheduled. The model tracks that instance with a
generation counter. The selection gate `shouldSelectPiece` is a function
the screen hands to `BoardView.Board.SelectPiece`.

Modules:
- `Wrappers`: `Option`.
- `Text`: `String(n)`, `substring` and `replace` with their JavaScript behaviour.
- `Chess`: the oracle.
- `BoardView`: the board component.
- `Uci`: move keys.
- `Lichess`: the socket protocol.
- `Training`: the puzzle trainer.
- `PlayerVsFriend`, `PlayerVsAI`, `RandomOpponent` (the `ChessContainer` screen): the game screens.
- `Clock`: the countdown clock.
- `Home`: the home screen.

## Model

| member | source | states |
|---|---|---|
| Text.NatToString | src/containers/Home.js:104-106 | decimal notation of a number: at least one character, digits only, and a single digit exactly below 10 |
| Text.ParseNatToString | src/containers/Home.js:104-106 | a number's decimal notation reads back to the number |
| Text.NatToStringInjective | src/containers/Home.js:104-106 | distinct numbers have distinct notations |
| Text.Substring | src/containers/Training.js:137-144 | `substring` with bounds in range is the slice between them, and it is never longer than its input |
| Text.IndexOfFrom | src/containers/Home.js:77 | the result is the first occurrence of the pattern at or after the start; no result means no occurrence |
| Text.RemoveFirst | src/containers/Home.js:77 | with an occurrence, the input is the result with the pattern put back at its first occurrence; without one, the input is returned |
| Text.RemoveFirstAbsent | src/containers/Home.js:77 | a string without the pattern is unchanged |
| Text.RemoveFirstPrefix | src/containers/Home.js:77 | a string starting with the pattern loses exactly that prefix |
| Chess.ColorOfName | src/containers/Training.js:109 | the colour is white exactly for the name `white` |
| Chess.NewGame | src/containers/PlayerVsAI.js:18 | a new game has an empty history and the given FEN, or the standard position when none is given |
| Chess.Load | src/components/board/Board.js:124-126 | loading replaces the position and empties the history |
| Chess.Destinations | src/components/board/Board.js:91-96 | a square is listed exactly when some legal move goes there from the given square |
| Chess.DestinationsIn | src/components/board/Board.js:91-96 | the same over any move list |
| Chess.FindMatch | src/components/board/Board.js:59 | the index of the first legal move the request matches; no index when none matches |
| Chess.Move | src/containers/Training.js:49-52 | the game is unchanged iff no legal move matches; otherwise exactly one matching legal move is appended |
| Chess.Undo | src/components/board/Board.js:67-73 | the last move is dropped; an empty history is left as it is |
| Chess.MoveFlipsTurn | src/containers/Training.js:60 | an applied move hands the turn to the opponent |
| Chess.UndoAfterMove | src/containers/Training.js:81-88 | undoing an applied move restores the game exactly |
| Chess.LegalMoveApplies | src/containers/ChessContainer.js:62-64 | replaying an entry of the legal-move list always applies one move and flips the turn |
| BoardView.SquareIndexOfPosition | src/components/board/Board.js:137-138 | a square label has two characters and reads back to its row-major index |
| BoardView.PositionsDistinct | src/components/board/Board.js:137-138 | different squares get different labels |
| BoardView.BoardData | src/components/board/Board.js:135-154 | the board list has 64 records |
| BoardView.CreateBoardData | src/components/board/Board.js:123-157 | the row-by-row loop builds exactly the board list of the game |
| BoardView.BoardDataFresh | src/components/board/Board.js:148-149 | a new list has the standard layout and no selection or move target |
| BoardView.BoardDataPositionsDistinct | src/components/board/Board.js:138 | the 64 records carry distinct labels |
| BoardView.LastMoveMarks | src/components/board/Board.js:130-150 | the last-move flag is nowhere without history, and otherwise exactly on the last move's origin and destination |
| BoardView.SquareIndexExact | src/components/board/Board.js:138 | a label that reads back to a square's index is that square's label |
| BoardView.InCheckMarks | src/components/board/Board.js:132-151 | the in-check flag is set exactly on a king of the side to move while that side is in check |
| BoardView.Find | src/components/board/Board.js:53-78 | `find` returns the first record satisfying the predicate, or none when no record does |
| BoardView.Origin | src/components/board/Board.js:53-57 | a non-empty `from` is the origin; otherwise the selected square, or none without a selection |
| BoardView.Reselect | src/components/board/Board.js:98-116 | the new list has the old length |
| BoardView.ReselectKeepsSquares | src/components/board/Board.js:101-115 | only the two selection flags change, so the layout is kept |
| BoardView.ReselectSelects | src/components/board/Board.js:108-115 | tapping an unselected piece selects exactly its square and targets exactly its destinations |
| BoardView.ReselectClears | src/components/board/Board.js:100-105 | tapping the selected piece clears every selection and target |
| BoardView.ReselectCoherent | src/components/board/Board.js:98-116 | after either branch a move target appears only with a selected square |
| BoardView.SelectTwiceClears | src/components/board/Board.js:98-116 | tapping the same admitted piece twice selects and then clears it |
| BoardView.LoadIfGiven | src/components/board/Board.js:124-126 | a non-empty FEN is loaded; an absent or empty one keeps the game |
| BoardView.Board.constructor | src/components/board/Board.js:30-39 | the board game is the new game with the FEN loaded again, and the list is its board list |
| BoardView.Board.ReceiveProps | src/components/board/Board.js:41-48 | an unchanged FEN keeps game and list; a changed one reloads and rebuilds |
| BoardView.Board.MovePiece | src/components/board/Board.js:50-65 | the move from the origin is played on the board's game, reported without promotion, and the list rebuilt; with no origin nothing changes |
| BoardView.Board.Undo | src/components/board/Board.js:67-73 | the board's game takes back one move and the list is rebuilt |
| BoardView.Board.SelectPiece | src/components/board/Board.js:75-121 | the tap's outcome (`SelectOutcome`): a tapped move target moves from the selected square; a refused piece changes nothing; any other piece reselects with its destinations; an unknown label changes nothing |
| BoardView.Board.PressSquare | src/components/board/Board.js:192 | the press's outcome (`PressOutcome`): a press moves to the square from the selected one only while it is a move target, and otherwise changes nothing |
| BoardView.TapSelectsOnlyAdmitted | src/components/board/Board.js:86-89 | with a screen's `shouldSelectPiece` as the gate, a tap never leaves a refused piece selected |
| Uci.ParseMove | src/containers/Training.js:137-144 | for a key of at least four characters, the origin is characters 0-2 and the destination 2-4 |
| Uci.ParseMoveRoundTrip | src/containers/Training.js:137-144 | parsing the key of two square labels gives them back |
| Lichess.InboundUci | src/containers/PlayerVsFriend.js:91-99 | a move uci is found exactly for an even-ply move event or a batch led by a mate, and is never empty |
| Lichess.OddPlyIgnored | src/containers/PlayerVsAI.js:65 | odd-ply move events carry no move |
| Lichess.OnlyMovesAndBatchesMove | src/containers/PlayerVsAI.js:64-72 | other message types carry no move |
| Lichess.BatchNeedsLeadingMate | src/containers/PlayerVsFriend.js:94-98 | a batch carries a move only through a leading mate element |
| Lichess.BoardMoveOf | src/containers/PlayerVsFriend.js:101-105 | the board is called exactly when a uci is found, with (characters 2-4, characters 0-2) |
| Lichess.EvenPlyMoves | src/containers/PlayerVsAI.js:74-78 | an even-ply event whose uci joins two labels moves from the first to the second |
| Lichess.SocketUrl | src/containers/PlayerVsFriend.js:83 | the address is the base, the path, `?sri=`, the client id and `&mobile=1`, in that order, each segment in its place |
| Lichess.SocketUrlInjective | src/containers/PlayerVsAI.js:55-57 | for one client, different paths give different addresses |
| Lichess.ChallengeSocketUrl | src/containers/PlayerVsFriend.js:51 | the challenge address is the common address template on the challenge's path |
| Lichess.MoveToSend | src/containers/PlayerVsFriend.js:142-150 | a local move is sent exactly when it hands the turn to black |
| Training.LookupIn | src/containers/Training.js:47 | a found line belongs to an entry with the key; none is found exactly when no entry has it |
| Training.ReplyWellFormed | src/containers/Training.js:67-70 | a subtree has a first key whose value is again a well-formed decision point |
| Training.LookupWellFormed | src/containers/Training.js:47 | a line found in a well-formed tree is well formed |
| Training.Step | src/containers/Training.js:44-91 | the matcher step keeps the tree well formed |
| Training.StepWin | src/containers/Training.js:54-59 | a winning key sets victory, clears success and failure, and keeps tree and timers |
| Training.StepRight | src/containers/Training.js:60-73 | a right move sets waiting and success, schedules the subtree's first key, and descends to that key's value |
| Training.StepWrong | src/containers/Training.js:74-89 | a missing key sets waiting and failure, schedules the take-back, and keeps the tree |
| Training.StepIgnored | src/containers/Training.js:54-63 | a non-winning move that leaves the turn with the user changes nothing |
| Training.AfterReply | src/containers/Training.js:123-135 | after the reply fires, the tree is still well formed and the screen no longer waits |
| Training.SolveWins | src/containers/Training.js:44-135 | playing a solving path from an idle matcher, with each reply firing, ends in victory |
| Training.TrainingScreen.constructor | src/containers/Training.js:15-25 | the initial state: no game or puzzle, an empty tree, only waiting set |
| Training.TrainingScreen.ShouldSelectPiece | src/containers/Training.js:146-158 | a piece is admitted iff the game is neither mate nor draw, it is the user's turn, and the piece is the user's |
| Training.TrainingScreen.OnMove | src/containers/Training.js:44-91 | the move is played on the screen's game, and the matcher takes its step for the side now to move |
| Training.TrainingScreen.Classify | src/containers/Training.js:54-90 | the branches after the move are the matcher step |
| Training.TrainingScreen.LoadPuzzle | src/containers/Training.js:101-114 | a fresh game on the puzzle FEN, the ids, the colour, the tree, waiting set, the initial move scheduled; the board keyed by the puzzle id |
| Training.TrainingScreen.MountBoard | src/containers/Training.js:180-188 | the same puzzle id passes the FEN to the mounted board; another id mounts a new board |
| Training.TrainingScreen.NextPuzzle | src/containers/Training.js:118-121 | back to the initial state with the board unmounted; pending timers stay scheduled |
| Training.TrainingScreen.TapPiece | src/components/board/Board.js:234 | the board takes the tap's outcome under the user's gate (a refused piece changes nothing); a move it makes goes through `onMove` |
| Training.TrainingScreen.TapSquare | src/components/board/Board.js:192 | the board takes the press's outcome; a move it makes goes through `onMove` |
| Training.TrainingScreen.FireTimer | src/containers/Training.js:81-88 | fires the oldest timer and carries its whole effect: a take-back undoes the game it was scheduled for and, with a board, the board's game, rebuilding the list and clearing waiting; an auto-played move has `FireLateMove`'s outcome; the tree is left alone by a take-back |
| Training.TrainingScreen.FireLateMove | src/containers/Training.js:123-135 | the scheduled game plays the move; the board plays it from its origin, rebuilds its list, and its report is classified again, clearing waiting; with no board or no origin the board and matcher are unchanged |
| Training.TrainingScreen.WrongMoveTakenBack | src/containers/Training.js:74-89 | a wrong move pressed on the board, once its take-back fires, leaves the screen's game and the board's game as they were, the list rebuilt without a selection, failure shown, the tree unchanged |
| Training.TrainingScreen.PlayScheduled | src/containers/Training.js:124-129 | only the instance the timer captured plays the move |
| Training.TrainingScreen.FireUndoWrong | src/containers/Training.js:81-88 | the captured game and the board's game each undo one move, and waiting is cleared |
| PlayerVsFriend.FriendScreen.constructor | src/containers/PlayerVsFriend.js:16-25 | a fresh game, not initialized, no invitation |
| PlayerVsFriend.FriendScreen.OnChallengeCreated | src/containers/PlayerVsFriend.js:49-57 | the socket opens at the challenge address; initialized with the challenge id as the invitation; the board mounts |
| PlayerVsFriend.FriendScreen.OnSocketOpen | src/containers/PlayerVsFriend.js:117-126 | the heartbeat starts and every other field, the invitation and challenge ids included, is unchanged |
| PlayerVsFriend.FriendScreen.OnHeartbeat | src/containers/PlayerVsFriend.js:120-125 | one ping with value 2 is sent; every other field is unchanged |
| PlayerVsFriend.FriendScreen.OnMove | src/containers/PlayerVsFriend.js:135-151 | the move is played without promotion and sent exactly when black is to move; no other field changes |
| PlayerVsFriend.FriendScreen.ShouldSelectPiece | src/containers/PlayerVsFriend.js:153-165 | white pieces only, on white's turn, while not mate or draw |
| PlayerVsFriend.FriendScreen.OnMessage | src/containers/PlayerVsFriend.js:64-106 | the first reload with v 3 (`Lichess.StartsReload`) latches the flag and starts the fetch; a carried move is played on the board, which is rebuilt, and on the screen's game, and sent back when black is then to move; otherwise board, game and sent messages stay; the ids, the board's FEN and the other flags are unchanged |
| PlayerVsFriend.FriendScreen.OnGameFetched | src/containers/PlayerVsFriend.js:80-87 | a socket path stops the heartbeat and moves to the game's address; without one nothing changes; the ids and the board are unchanged |
| PlayerVsFriend.FriendScreen.TapPiece | src/components/board/Board.js:234 | the board takes the tap's outcome under the white gate (a refused piece changes nothing); a move it makes is played and sent per `onMove`; the socket, ids, flags and the board's FEN are unchanged |
| PlayerVsFriend.FriendScreen.TapSquare | src/components/board/Board.js:192 | the board takes the press's outcome; a move it makes is played and sent per `onMove`; the socket, ids, flags and the board's FEN are unchanged |
| PlayerVsFriend.ReloadAtMostOnce | src/containers/PlayerVsFriend.js:69-70 | over any message sequence the reload fetch starts at most once, and never once latched |
| PlayerVsFriend.LatchedNoReload | src/containers/PlayerVsFriend.js:69 | with the latch set no message starts the fetch |
| PlayerVsAI.AIScreen.constructor | src/containers/PlayerVsAI.js:13-20 | a fresh game, not initialized |
| PlayerVsAI.AIScreen.OnGameCreated | src/containers/PlayerVsAI.js:51-57 | the socket opens at the address built from the game's path and a fresh client id |
| PlayerVsAI.AIScreen.OnSocketOpen | src/containers/PlayerVsAI.js:86-98 | initialized, the board mounted and the heartbeat running |
| PlayerVsAI.AIScreen.OnHeartbeat | src/containers/PlayerVsAI.js:92-97 | one ping with value 2 is sent |
| PlayerVsAI.AIScreen.Unmount | src/containers/PlayerVsAI.js:26-28 | the heartbeat stops and the board goes |
| PlayerVsAI.AIScreen.OnMove | src/containers/PlayerVsAI.js:107-124 | the move is played with a queen promotion and sent exactly when black is to move |
| PlayerVsAI.AIScreen.ShouldSelectPiece | src/containers/PlayerVsAI.js:126-138 | white pieces only, on white's turn, while not mate or draw |
| PlayerVsAI.AIScreen.OnMessage | src/containers/PlayerVsAI.js:59-79 | a carried move is played on the board without promotion, with the list rebuilt, and on the screen's game with a queen promotion, and sent back when black is then to move; otherwise board, game and sent messages stay |
| PlayerVsAI.AIScreen.TapPiece | src/components/board/Board.js:234 | the board takes the tap's outcome under the white gate (a refused piece changes nothing); a move it makes is played and sent per `onMove`; the socket, flags and the board's FEN are unchanged |
| PlayerVsAI.AIScreen.TapSquare | src/components/board/Board.js:192 | the board takes the press's outcome; a move it makes is played and sent per `onMove`; the socket, flags and the board's FEN are unchanged |
| RandomOpponent.RandomGame.constructor | src/containers/ChessContainer.js:12-20 | a fresh game and board with one random move scheduled |
| RandomOpponent.RandomGame.ShouldSelectPiece | src/containers/ChessContainer.js:35-47 | black pieces only, on black's turn, while not mate or draw |
| RandomOpponent.RandomGame.OnMove | src/containers/ChessContainer.js:22-33 | the move is played with a queen promotion, and another random move is scheduled iff the turn left the user |
| RandomOpponent.RandomGame.MakeRandomMove | src/containers/ChessContainer.js:49-66 | no move iff the game is over, drawn or has no moves (`Stalled`); otherwise a legal-list entry is played and then echoed by the board into `onMove` |
| RandomOpponent.RandomGame.FireRandomMove | src/containers/ChessContainer.js:18-33 | a scheduled move leaves the count and `makeRandomMove` runs, with its whole new state; the move picked applies and hands the turn over |
| RandomOpponent.RandomGame.TapPiece | src/components/board/Board.js:234 | the board takes the tap's outcome under the black gate (a refused piece changes nothing); a move it makes goes through `onMove` |
| RandomOpponent.RandomGame.TapSquare | src/components/board/Board.js:192 | the board takes the press's outcome; a move it makes goes through `onMove` |
| Clock.Countdown | src/components/Clock.js:34-46 | an enabled positive time drops by one; otherwise it stays; it never goes below zero |
| Clock.TicksClamp | src/components/Clock.js:42-46 | n enabled ticks subtract n seconds, stopping at zero |
| Clock.DongOnce | src/components/Clock.js:36-40 | over a run of ticks the low-time sound plays once iff the run passes 59 seconds |
| Clock.Pad2 | src/components/Clock.js:76-81 | a one-character field gets a leading zero; others are unchanged |
| Clock.Minutes | src/components/Clock.js:68-69 | the minutes field is below 60 |
| Clock.Seconds | src/components/Clock.js:70 | the seconds field is below 60 |
| Clock.FieldWidth | src/components/Clock.js:76-81 | a padded field below 60 has two digits and reads back as its value |
| Clock.Display | src/components/Clock.js:57-88 | a negative time shows the waiting text when enabled and a blank otherwise; a started clock shows `dd:dd` |
| Clock.DisplayReadsBack | src/components/Clock.js:68-85 | the display reads back as the time modulo one hour |
| Clock.HourWraps | src/components/Clock.js:68-69 | one hour left shows as `00:00` |
| Clock.PaddedReadsBack | src/components/Clock.js:76-78 | a padded number of any size reads back as itself |
| Clock.DisplayTotal | src/components/Clock.js:57-88 | the corrected display: sentinels as before, and a started clock ends in `:dd` |
| Clock.DisplayTotalReadsBack | src/components/Clock.js:68-85 | the corrected display reads back as the whole time |
| Clock.ClockView.constructor | src/components/Clock.js:15-20 | the countdown starts at the `time` prop |
| Clock.ClockView.ReceiveProps | src/components/Clock.js:22-29 | a changed `time` prop restarts the countdown; an unchanged one does not |
| Clock.ClockView.Tick | src/components/Clock.js:31-51 | one interval: the sound iff enabled at 59, and the time follows the countdown |
| Home.ColorAt | src/containers/Home.js:107 | the colour names by tab index; none outside the three tabs |
| Home.ClockValue | src/containers/Home.js:114 | the real-time tab gives the minutes in whole seconds; any other gives -1 |
| Home.UnlimitedClockWaits | src/components/Clock.js:60-66 | the unlimited clock shows the waiting text or a blank |
| Home.RealTimeClockStarts | src/containers/Home.js:114 | with the corrected display a real-time clock starts at the chosen minutes and zero seconds |
| Home.HourClockShowsZero | src/containers/Home.js:114 | with the display as written a 60-minute clock starts at `00:00` |
| Home.MakeConfig | src/containers/Home.js:100-109 | the seek fields hold the dialog's values; the numbers as decimal strings that read back to them |
| Home.RouteFor | src/containers/Home.js:111-121 | the engine screen iff the engine was chosen, with the same parameters either way |
| Home.DeepLinkId | src/containers/Home.js:77 | the link is the id with the scheme put back at its first occurrence; a link without the scheme is the id |
| Home.DeepLinkRoundTrip | src/containers/Home.js:77 | a link built from the scheme and an id gives back the id |
| Home.DeepLinkWithoutScheme | src/containers/Home.js:77 | a URL without the scheme is its own id |
| Home.HomeScreen.constructor | src/containers/Home.js:26-41 | the initial dialog values |
| Home.HomeScreen.DisplayModal | src/containers/Home.js:82-87 | the dialog opens for the chosen opponent and nothing else changes |
| Home.HomeScreen.Create | src/containers/Home.js:89-124 | one navigation with the configuration and clock value, and the dialog closes |
| Home.HomeScreen.HandleOpenURL | src/containers/Home.js:75-80 | a deep link opens the friend screen with the link's id |
| Home.HomeScreen.OnDailyPuzzle | src/containers/Home.js:63-71 | the puzzle's FEN and colour are shown and the screen is ready |

## Left out

- The chess rules (chess.js): legal moves, check, mate, draw and the board grid are oracle functions. Only the move-matching rule, the turn alternation and undo are modelled.
- Rendering, styles, layout and reversing the board for black. Piece images, sounds and console logging are also left out. The low-time sound is the result of `Clock.ClockView.Tick`.
- HTTP requests and WebSockets: their responses and events are the parameters of step methods. The request bodies are not modelled, except the seek configuration of the home screen.
- `Math.random` and `Date.now`. The client ids are parameters, and the random move index is any valid index.
- `setTimeout` and `setInterval` delays: timers are queues or counters fired in order by explicit steps. Clearing an interval is a flag.
- JSON parsing and serialisation: inbound messages are the `Lichess.Inbound` datatype, and outbound messages and the seek configuration are datatypes.
- Training.Step: puzzle values other than the winning marker and subtrees, such as `retry`, are not modelled. Well-formed trees are required (distinct keys, and every subtree reached by a move has a reply).
- Training.TrainingScreen.LoadPuzzle: an empty puzzle id, which the render treats as no puzzle, is taken as shown.
- Calls the source makes on a missing board or a missing selection throw in JavaScript. The model leaves the state unchanged at the throwing point instead.
- Sending on a socket that is not open throws in the source. The model records every message sent.
- The friend screen does not close the old socket on reload. It stops the old heartbeat before opening the new socket, but the old socket stays open and its messages are still handled. The model tracks only the current socket.
- Home's slider and tab setters are plain field writes with no logic beyond the values `Create` reads. The puzzle preview's navigation to the trainer, and the game screens' use of the home screen's parameters (those screens ignore them), are also left out.
- The board's game refuses promotions: `movePiece` never passes one, so under the chess.js 0.10 matching rule it rejects a promoting move. The engine and random screens do apply the queen, so their two games can then diverge. This is stated by `PlayerVsAI.AIScreen.OnMessage` and `RandomOpponent.RandomGame.MakeRandomMove`, not flagged as a defect.

## Findings

| source | as written | input that shows it | evidently intended | confidence | as-written member | corrected member |
|---|---|---|---|---|---|---|
| src/components/Clock.js:68-69 | minutes are taken modulo 60, so whole hours vanish from the display | time 3600 seconds, which the home screen produces for a 60-minute clock (src/containers/Home.js:114, the slider allows up to 150 minutes at line 145), shows `00:00` | the minutes field counts every whole minute left | low, not executed; no screen in this repository renders the clock | Clock.HourWraps | Clock.DisplayTotalReadsBack |
