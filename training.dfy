/**
 * The puzzle trainer. A puzzle is a tree from four-character move keys to
 * either the winning marker or the subtree that follows: the first key of
 * that subtree is the opponent's reply, which the screen plays by itself
 * after a delay, and the reply's value is the next decision point. Each
 * user move is classified as winning, right or wrong; a wrong move is taken
 * back after a delay. Delays are explicit timers that a separate step fires.
 */
module Training {
  import opened Wrappers
  import Chess
  import Uci
  import BoardView

  datatype Line = Win | Sub(tree: Tree)
  datatype Tree = Tree(entries: seq<Entry>)
  datatype Entry = Entry(key: string, line: Line)

  /** `lines[key]` on an object: the value of the first entry with that key. */
  function LookupIn(entries: seq<Entry>, key: string): (r: Option<Line>)
    ensures r.Some? ==> exists i :: 0 <= i < |entries| && entries[i].key == key && entries[i].line == r.value
    ensures r.None? ==> forall i :: 0 <= i < |entries| ==> entries[i].key != key
    ensures |entries| > 0 && entries[0].key == key ==> r == Some(entries[0].line)
  {
    if entries == [] then None
    else if entries[0].key == key then Some(entries[0].line)
    else LookupIn(entries[1..], key)
  }

  /** `lines[key]`; on the string `'win'` no move key is found. */
  function Lookup(lines: Line, key: string): Option<Line>
  {
    match lines
    case Win => None
    case Sub(t) => LookupIn(t.entries, key)
  }

  /** `Object.keys(t)[0]`. */
  function FirstKey(t: Tree): string
    requires |t.entries| > 0
  {
    t.entries[0].key
  }

  predicate DistinctKeys(es: seq<Entry>)
  {
    forall i, j :: 0 <= i < j < |es| ==> es[i].key != es[j].key
  }

  /**
   * The shape of a puzzle as the server sends it: keys within one object
   * are distinct, and every subtree reached by a move has a first key, the
   * opponent's reply.
   */
  predicate WellFormedTree(t: Tree)
    decreases t, 1
  {
    DistinctKeys(t.entries) &&
    forall i :: 0 <= i < |t.entries| ==> WellFormedLine(t.entries[i].line)
  }

  predicate WellFormedLine(l: Line)
    decreases l, 0
  {
    match l
    case Win => true
    case Sub(t) => |t.entries| > 0 && WellFormedTree(t)
  }

  /** The tree held in `lines`: like a subtree, except that it may be empty (`{}`). */
  predicate WellFormedRoot(l: Line)
  {
    match l
    case Win => true
    case Sub(t) => WellFormedTree(t)
  }

  /** The reply at the head of a subtree leads to a decision point of the same shape. */
  lemma ReplyWellFormed(t: Tree)
    requires WellFormedLine(Sub(t))
    ensures |t.entries| > 0 && WellFormedRoot(t.entries[0].line)
    ensures LookupIn(t.entries, FirstKey(t)) == Some(t.entries[0].line)
  {
    assert WellFormedLine(t.entries[0].line);
  }

  lemma LookupWellFormed(lines: Line, key: string)
    requires WellFormedRoot(lines)
    ensures Lookup(lines, key).Some? ==> WellFormedLine(Lookup(lines, key).value)
  {
  }

  /** A delayed callback: the auto-played move `move`, or the take-back of a wrong move. */
  datatype Timer =
    | LateMove(move: string, gen: nat)
    | UndoWrong(gen: nat)

  /** Every scheduled timer names a game older than `bound`. */
  predicate TimersValid(pending: seq<Timer>, bound: nat)
  {
    forall i :: 0 <= i < |pending| ==> pending[i].gen < bound
  }

  /** The matcher's part of the screen state. */
  datatype MatchState = MatchState(
    lines: Line, victory: bool, success: bool, failed: bool, waiting: bool, pending: seq<Timer>)

  /**
   * The classification done by `onMove` once the user's move `moveStr` has
   * been played and the side to move is `turnAfter`. Timers it schedules
   * carry `gen`, the identity of the game they act on.
   */
  function Step(m: MatchState, moveStr: string, turnAfter: Chess.Color, userColor: Option<Chess.Color>, gen: nat): (r: MatchState)
    requires WellFormedRoot(m.lines)
    ensures WellFormedRoot(r.lines)
  {
    var moveLine := Lookup(m.lines, moveStr);
    LookupWellFormed(m.lines, moveStr);
    if moveLine == Some(Win) then
      m.(victory := true, success := false, failed := false)
    else if Some(turnAfter) != userColor then
      match moveLine
      case Some(Sub(t)) =>
        ReplyWellFormed(t);
        var nextMove := FirstKey(t);
        m.(waiting := true, pending := m.pending + [LateMove(nextMove, gen)],
           lines := LookupIn(t.entries, nextMove).value, success := true, failed := false)
      case _ =>
        m.(waiting := true, success := false, failed := true, pending := m.pending + [UndoWrong(gen)])
    else m
  }

  /** A winning key sets the victory flag, clears the other two and keeps the tree. */
  lemma StepWin(m: MatchState, moveStr: string, turnAfter: Chess.Color, userColor: Option<Chess.Color>, gen: nat)
    requires WellFormedRoot(m.lines) && Lookup(m.lines, moveStr) == Some(Win)
    ensures var r := Step(m, moveStr, turnAfter, userColor, gen);
      r.victory && !r.success && !r.failed && r.lines == m.lines && r.pending == m.pending && r.waiting == m.waiting
  {
  }

  /**
   * A right move hands the turn over, marks success, schedules exactly the
   * subtree's first key as the reply and descends to the reply's value.
   */
  lemma StepRight(m: MatchState, moveStr: string, turnAfter: Chess.Color, userColor: Option<Chess.Color>, gen: nat, t: Tree)
    requires WellFormedRoot(m.lines) && Lookup(m.lines, moveStr) == Some(Sub(t))
    requires Some(turnAfter) != userColor
    ensures |t.entries| > 0
    ensures var r := Step(m, moveStr, turnAfter, userColor, gen);
      r.waiting && r.success && !r.failed && r.victory == m.victory &&
      r.pending == m.pending + [LateMove(FirstKey(t), gen)] &&
      Lookup(Sub(t), FirstKey(t)) == Some(r.lines)
  {
    LookupWellFormed(m.lines, moveStr);
  }

  /** A key that is not in the tree is wrong: failure, a scheduled take-back, the same tree. */
  lemma StepWrong(m: MatchState, moveStr: string, turnAfter: Chess.Color, userColor: Option<Chess.Color>, gen: nat)
    requires WellFormedRoot(m.lines) && Lookup(m.lines, moveStr).None?
    requires Some(turnAfter) != userColor
    ensures var r := Step(m, moveStr, turnAfter, userColor, gen);
      r.waiting && r.failed && !r.success && r.victory == m.victory && r.lines == m.lines &&
      r.pending == m.pending + [UndoWrong(gen)]
  {
  }

  /** A move that leaves the turn with the user and is not a winning key changes nothing. */
  lemma StepIgnored(m: MatchState, moveStr: string, turnAfter: Chess.Color, userColor: Option<Chess.Color>, gen: nat)
    requires WellFormedRoot(m.lines) && Lookup(m.lines, moveStr) != Some(Win)
    requires Some(turnAfter) == userColor
    ensures Step(m, moveStr, turnAfter, userColor, gen) == m
  {
  }

  /**
   * What firing the reply timer does to the matcher: the timer leaves the
   * queue, the board reports the reply back to `onMove` (where, with the
   * turn back at the user, it is classified again), and the screen stops
   * waiting.
   */
  function AfterReply(m: MatchState, reply: string, user: Chess.Color, gen: nat): (r: MatchState)
    requires WellFormedRoot(m.lines) && |m.pending| > 0
    ensures WellFormedRoot(r.lines) && !r.waiting
  {
    Step(m.(pending := m.pending[1..]), reply, user, Some(user), gen).(waiting := false)
  }

  /**
   * A path of user keys that solves the tree: every key is present, each
   * one that is not the last leads to a reply whose value is the next
   * decision point, the last one is winning, and no reply is itself a
   * winning key of the point it leads to.
   */
  predicate WinningPath(l: Line, path: seq<string>)
    requires WellFormedRoot(l)
    decreases |path|
  {
    if |path| == 0 then false
    else
    LookupWellFormed(l, path[0]);
    match Lookup(l, path[0])
    case Some(Win) => |path| == 1
    case Some(Sub(t)) =>
      ReplyWellFormed(t);
      |path| > 1 && Lookup(t.entries[0].line, FirstKey(t)) != Some(Win) &&
      WinningPath(t.entries[0].line, path[1..])
    case None => false
  }

  /**
   * The matcher after the user plays `path` (each move handing the turn to
   * the opponent) and each scheduled reply fires.
   */
  function Solve(m: MatchState, path: seq<string>, user: Chess.Color, gen: nat): (r: MatchState)
    requires WellFormedRoot(m.lines)
    decreases |path|
  {
    if path == [] then m
    else
      var afterMove := Step(m, path[0], Chess.Opponent(user), Some(user), gen);
      if afterMove.victory || afterMove.pending == [] || !afterMove.success then afterMove
      else
        var reply := afterMove.pending[|afterMove.pending| - 1].move;
        Solve(AfterReply(afterMove, reply, user, gen), path[1..], user, gen)
  }

  /** Playing a solving path from an idle matcher ends in victory. */
  lemma {:induction false} SolveWins(m: MatchState, path: seq<string>, user: Chess.Color, gen: nat)
    requires WellFormedRoot(m.lines) && WinningPath(m.lines, path)
    requires m.pending == [] && !m.victory
    ensures Solve(m, path, user, gen).victory
    decreases |path|
  {
    LookupWellFormed(m.lines, path[0]);
    var afterMove := Step(m, path[0], Chess.Opponent(user), Some(user), gen);
    match Lookup(m.lines, path[0])
    case Some(Win) =>
    case Some(Sub(t)) =>
      StepRight(m, path[0], Chess.Opponent(user), Some(user), gen, t);
      assert afterMove.pending == [LateMove(FirstKey(t), gen)];
      var next := AfterReply(afterMove, FirstKey(t), user, gen);
      assert afterMove.lines == t.entries[0].line;
      StepIgnored(afterMove.(pending := []), FirstKey(t), user, Some(user), gen);
      assert next.lines == t.entries[0].line && next.pending == [] && !next.victory;
      SolveWins(next, path[1..], user, gen);
  }

  class TrainingScreen {
    const rules: Chess.Rules
    /** `state.game`; `None` stands for the `null` of the initial state. */
    var game: Option<Chess.Game>
    var puzzleId: Option<string>
    var fen: Option<string>
    /** `state.userColor`; `None` stands for the initial `''`. */
    var userColor: Option<Chess.Color>
    /** `state.lines` and the four flags, with the timers scheduled and not yet fired. */
    var matcher: MatchState
    /** The mounted board (`this.board`), absent while no puzzle is shown. */
    var board: BoardView.Board?
    /**
     * Identity of the chess instance in `state.game`: a timer acts on the
     * instance that was current when it was scheduled.
     */
    var generation: nat

    ghost predicate Valid()
      reads this, board
    {
      WellFormedRoot(matcher.lines) &&
      (board != null ==> board.Valid() && game.Some?) &&
      TimersValid(matcher.pending, if game.Some? then generation + 1 else generation)
    }

    /** `INITIAL_STATE`: no puzzle, an empty tree, only `waiting` set. */
    constructor (rules: Chess.Rules)
      ensures Valid() && this.rules == rules
      ensures game.None? && puzzleId.None? && fen.None? && userColor.None? && board == null
      ensures matcher == MatchState(Sub(Tree([])), false, false, false, true, [])
    {
      this.rules := rules;
      game, puzzleId, fen, userColor := None, None, None, None;
      matcher := MatchState(Sub(Tree([])), false, false, false, true, []);
      board := null;
      generation := 0;
    }

    /**
     * `shouldSelectPiece`: only while the game is neither checkmate nor
     * drawn, on the user's turn, and for a piece of the user's colour.
     */
    function ShouldSelectPiece(square: BoardView.Square): (r: bool)
      reads this
      requires game.Some?
      ensures r <==> (!Chess.InCheckmate(game.value) && !Chess.InDraw(game.value) &&
        userColor == Some(Chess.Turn(game.value)) && square.piece.Some? && square.piece.value.color == Chess.Turn(game.value))
    {
      Chess.MaySelect(game.value, userColor, square.piece)
    }

    /**
     * `onMove({ from, to })`: the move is played on the screen's game and
     * the matcher classifies it.
     */
    method OnMove(from: string, to: string)
      requires Valid() && game.Some?
      modifies this`game, this`matcher
      ensures Valid()
      ensures game == Some(Chess.Move(old(game.value), Chess.Request(from, to, None)))
      ensures matcher == Step(old(matcher), from + to, Chess.Turn(game.value), userColor, generation)
    {
      game := Some(Chess.Move(game.value, Chess.Request(from, to, None)));
      Classify(from + to, Chess.Turn(game.value));
    }

    /** The branches of `onMove` after the move is played; `turnAfter` is the side now to move. */
    method Classify(moveStr: string, turnAfter: Chess.Color)
      requires Valid() && game.Some?
      modifies this`matcher
      ensures Valid()
      ensures matcher == Step(old(matcher), moveStr, turnAfter, userColor, generation)
    {
      var moveLine := Lookup(matcher.lines, moveStr);
      LookupWellFormed(matcher.lines, moveStr);
      if moveLine == Some(Win) {
        matcher := matcher.(victory := true, success := false, failed := false);
      } else if Some(turnAfter) != userColor {
        if moveLine.Some? && moveLine.value.Sub? {
          var t := moveLine.value.tree;
          ReplyWellFormed(t);
          var nextMove := FirstKey(t);
          matcher := matcher.(waiting := true, pending := matcher.pending + [LateMove(nextMove, generation)],
                              lines := LookupIn(t.entries, nextMove).value, success := true, failed := false);
        } else {
          matcher := matcher.(waiting := true, success := false, failed := true,
                              pending := matcher.pending + [UndoWrong(generation)]);
        }
      }
    }

    /**
     * The response of the puzzle fetch: a fresh game on the puzzle's FEN,
     * the user's colour from the puzzle's colour name, the tree, and the
     * initial move scheduled as the first auto-played move. The board is
     * keyed by the puzzle id: a new id mounts a new board.
     */
    method LoadPuzzle(id: string, puzzleFen: string, color: string, initialMove: string, puzzleLines: Line)
      requires Valid() && WellFormedRoot(puzzleLines)
      modifies this, board
      ensures Valid()
      ensures game == Some(Chess.NewGame(rules, Some(puzzleFen))) && generation == old(generation) + 1
      ensures puzzleId == Some(id) && fen == Some(puzzleFen)
      ensures userColor == Some(Chess.ColorOfName(color))
      ensures matcher == old(matcher).(waiting := true, lines := puzzleLines,
                                       pending := old(matcher.pending) + [LateMove(initialMove, generation)])
      ensures board != null
      ensures old(board) != null && old(puzzleId) == Some(id) ==>
        board == old(board) && board.fen == Some(puzzleFen) &&
        (old(board.fen) == Some(puzzleFen) ==> board.game == old(board.game) && board.squares == old(board.squares)) &&
        (old(board.fen) != Some(puzzleFen) ==>
          board.game == BoardView.LoadIfGiven(old(board.game), Some(puzzleFen)) && board.squares == BoardView.BoardData(board.game))
      ensures old(board) == null || old(puzzleId) != Some(id) ==>
        fresh(board) && board.fen == Some(puzzleFen) &&
        board.game == BoardView.LoadIfGiven(Chess.NewGame(rules, Some(puzzleFen)), Some(puzzleFen)) &&
        board.squares == BoardView.BoardData(board.game)
    {
      MountBoard(id, puzzleFen);
      generation := generation + 1;
      game := Some(Chess.NewGame(rules, Some(puzzleFen)));
      puzzleId := Some(id);
      fen := Some(puzzleFen);
      userColor := Some(Chess.ColorOfName(color));
      matcher := matcher.(waiting := true, lines := puzzleLines,
                          pending := matcher.pending + [LateMove(initialMove, generation)]);
    }

    /** The board keyed by the puzzle id: the same id passes the new FEN down, another id mounts a new board. */
    method MountBoard(id: string, puzzleFen: string)
      requires board != null ==> board.Valid()
      modifies this`board, board
      ensures board != null && board.Valid()
      ensures old(board) != null && puzzleId == Some(id) ==>
        board == old(board) && board.fen == Some(puzzleFen) &&
        (old(board.fen) == Some(puzzleFen) ==> board.game == old(board.game) && board.squares == old(board.squares)) &&
        (old(board.fen) != Some(puzzleFen) ==>
          board.game == BoardView.LoadIfGiven(old(board.game), Some(puzzleFen)) && board.squares == BoardView.BoardData(board.game))
      ensures old(board) == null || puzzleId != Some(id) ==>
        fresh(board) && board.fen == Some(puzzleFen) &&
        board.game == BoardView.LoadIfGiven(Chess.NewGame(rules, Some(puzzleFen)), Some(puzzleFen)) &&
        board.squares == BoardView.BoardData(board.game)
    {
      if board != null && puzzleId == Some(id) {
        board.ReceiveProps(Some(puzzleFen));
      } else {
        board := new BoardView.Board(rules, Some(puzzleFen));
      }
    }

    /** `nextPuzzle`: back to the initial state (the board unmounts) while the next puzzle is fetched. */
    method NextPuzzle()
      requires Valid()
      modifies this
      ensures Valid()
      ensures game.None? && puzzleId.None? && fen.None? && userColor.None? && board == null
      ensures matcher == MatchState(Sub(Tree([])), false, false, false, true, old(matcher.pending))
      ensures generation == old(generation) + 1
    {
      game, puzzleId, fen, userColor := None, None, None, None;
      matcher := MatchState(Sub(Tree([])), false, false, false, true, matcher.pending);
      board := null;
      generation := generation + 1;
    }

    /** A tap on a piece: the board's `selectPiece` with this screen's gate, and `onMove` for a move it makes. */
    method TapPiece(position: string) returns (moved: Option<Chess.Request>)
      requires Valid() && board != null
      modifies this`game, this`matcher, board
      ensures Valid() && board.fen == old(board.fen)
      ensures var g, side := old(game.value), old(userColor);
        BoardView.SelectOutcome(old(board.squares), old(board.game), position,
          (sq: BoardView.Square) => Chess.MaySelect(g, side, sq.piece), moved, board.game, board.squares)
      ensures moved.None? ==> game == old(game) && matcher == old(matcher)
      ensures moved.Some? ==>
        game == Some(Chess.Move(old(game.value), Chess.Request(moved.value.from, moved.value.to, None))) &&
        matcher == Step(old(matcher), moved.value.from + moved.value.to, Chess.Turn(game.value), userColor, generation)
    {
      var g := game.value;
      var side := userColor;
      moved := board.SelectPiece(position, (sq: BoardView.Square) => Chess.MaySelect(g, side, sq.piece));
      if moved.Some? {
        OnMove(moved.value.from, moved.value.to);
      }
    }

    /** A press on a square marked as a move target: the board's `movePiece`, then `onMove`. */
    method TapSquare(position: string) returns (moved: Option<Chess.Request>)
      requires Valid() && board != null
      modifies this`game, this`matcher, board
      ensures Valid() && board.fen == old(board.fen)
      ensures BoardView.PressOutcome(old(board.squares), old(board.game), position, moved, board.game, board.squares)
      ensures moved.None? ==> game == old(game) && matcher == old(matcher)
      ensures moved.Some? ==>
        game == Some(Chess.Move(old(game.value), Chess.Request(moved.value.from, moved.value.to, None))) &&
        matcher == Step(old(matcher), moved.value.from + moved.value.to, Chess.Turn(game.value), userColor, generation)
    {
      moved := board.PressSquare(position);
      if moved.Some? {
        OnMove(moved.value.from, moved.value.to);
      }
    }

    /** The game a timer's own action leaves in `state.game`: a stale timer's instance is no longer there. */
    static function TimerGame(game: Option<Chess.Game>, t: Timer, generation: nat): Option<Chess.Game>
    {
      if t.gen != generation || game.None? then game
      else match t
        case LateMove(move, _) =>
          Some(Chess.Move(game.value, Chess.Request(Uci.ParseMove(move).0, Uci.ParseMove(move).1, None)))
        case UndoWrong(_) => Some(Chess.Undo(game.value))
    }

    /**
     * Fires the earliest pending timer: the auto-played move or the
     * take-back, each acting on the game it was scheduled for.
     */
    method FireTimer()
      requires Valid() && |matcher.pending| > 0
      modifies this`game, this`matcher, board
      ensures Valid() && (board != null ==> board.fen == old(board.fen))
      ensures var rest := old(matcher).(pending := old(matcher.pending[1..]));
        match old(matcher.pending[0])
        case UndoWrong(gen) =>
          game == TimerGame(old(game), UndoWrong(gen), generation) &&
          (board == null ==> matcher == rest) &&
          (board != null ==>
            board.game == Chess.Undo(old(board.game)) && board.squares == BoardView.BoardData(board.game) &&
            matcher == rest.(waiting := false))
        case LateMove(move, gen) =>
          var (from, to) := Uci.ParseMove(move);
          var g1 := TimerGame(old(game), LateMove(move, gen), generation);
          var origin := if board == null then None else BoardView.Origin(old(board.squares), from);
          if origin.None? then
            game == g1 && matcher == rest &&
            (board != null ==> board.game == old(board.game) && board.squares == old(board.squares))
          else
            board.game == Chess.Move(old(board.game), Chess.Request(origin.value, to, None)) &&
            board.squares == BoardView.BoardData(board.game) &&
            game == Some(Chess.Move(g1.value, Chess.Request(origin.value, to, None))) &&
            matcher == Step(rest, origin.value + to, Chess.Turn(game.value), userColor, generation).(waiting := false)
    {
      var t := matcher.pending[0];
      matcher := matcher.(pending := matcher.pending[1..]);
      match t
      case LateMove(move, gen) =>
        FireLateMove(move, gen);
      case UndoWrong(gen) =>
        FireUndoWrong(gen);
    }

    /**
     * `lateMove`: the move is played on the game it was scheduled for (a
     * stale game is no longer in the state), then on the board, whose report
     * goes through `onMove` again; afterwards the screen stops waiting. With
     * no board mounted the source throws after the game step; a board with
     * no origin for the move throws too.
     */
    method FireLateMove(move: string, gen: nat)
      requires Valid() && gen <= generation && (game.None? ==> gen < generation)
      modifies this`game, this`matcher, board
      ensures Valid() && (board != null ==> board.fen == old(board.fen))
      ensures var (from, to) := Uci.ParseMove(move);
        var g1 := TimerGame(old(game), LateMove(move, gen), generation);
        var origin := if board == null then None else BoardView.Origin(old(board.squares), from);
        if origin.None? then
          game == g1 && matcher == old(matcher) &&
          (board != null ==> board.game == old(board.game) && board.squares == old(board.squares))
        else
          board.game == Chess.Move(old(board.game), Chess.Request(origin.value, to, None)) &&
          board.squares == BoardView.BoardData(board.game) &&
          game == Some(Chess.Move(g1.value, Chess.Request(origin.value, to, None))) &&
          matcher == Step(old(matcher), origin.value + to, Chess.Turn(game.value), userColor, generation).(waiting := false)
    {
      var (from, to) := Uci.ParseMove(move);
      PlayScheduled(from, to, gen);
      if board == null {
        return;
      }
      var moved := board.MovePiece(to, from);
      if moved.None? {
        return;
      }
      OnMove(moved.value.from, moved.value.to);
      matcher := matcher.(waiting := false);
    }

    /**
     * A wrong move pressed on the board, once its take-back fires, leaves
     * the screen's game and the board's game as they were, with the board
     * list rebuilt, the failure shown and the tree unchanged.
     */
    method WrongMoveTakenBack(position: string)
      requires Valid() && board != null && matcher.pending == []
      requires var k := BoardView.FindPosition(board.squares, position);
        k.Some? && board.squares[k.value].canMoveHere && BoardView.FindSelected(board.squares).Some?
      requires var r := Chess.Request(board.squares[BoardView.FindSelected(board.squares).value].position, position, None);
        Lookup(matcher.lines, r.from + r.to).None? &&
        Chess.Move(game.value, r) != game.value && Chess.Move(board.game, r) != board.game &&
        Some(Chess.Turn(Chess.Move(game.value, r))) != userColor
      modifies this`game, this`matcher, board
      ensures Valid() && game == old(game)
      ensures board.game == old(board.game) && board.squares == BoardView.BoardData(old(board.game))
      ensures board.fen == old(board.fen)
      ensures matcher == old(matcher).(success := false, failed := true, waiting := false)
    {
      ghost var r := Chess.Request(board.squares[BoardView.FindSelected(board.squares).value].position, position, None);
      var moved := TapSquare(position);
      assert moved == Some(r);
      StepWrong(old(matcher), r.from + r.to, Chess.Turn(game.value), userColor, generation);
      FireTimer();
      Chess.UndoAfterMove(old(game).value, r);
      Chess.UndoAfterMove(old(board.game), r);
    }

    /** `game.move({ from, to })` on the game instance that timer `gen` captured. */
    method PlayScheduled(from: string, to: string, gen: nat)
      modifies this`game
      ensures game == if gen == generation && old(game).Some?
        then Some(Chess.Move(old(game).value, Chess.Request(from, to, None))) else old(game)
    {
      if gen == generation && game.Some? {
        game := Some(Chess.Move(game.value, Chess.Request(from, to, None)));
      }
    }

    /** The take-back of a wrong move: the scheduled game and the board each undo one move. */
    method FireUndoWrong(gen: nat)
      requires Valid() && gen <= generation && (game.None? ==> gen < generation)
      modifies this`game, this`matcher, board
      ensures Valid() && (board != null ==> board.fen == old(board.fen))
      ensures game == TimerGame(old(game), UndoWrong(gen), generation)
      ensures board == null ==> matcher == old(matcher)
      ensures board != null ==>
        board.game == Chess.Undo(old(board.game)) && board.squares == BoardView.BoardData(board.game) &&
        matcher == old(matcher).(waiting := false)
    {
      if gen == generation && game.Some? {
        game := Some(Chess.Undo(game.value));
      }
      if board == null {
        return;
      }
      board.Undo();
      matcher := matcher.(waiting := false);
    }
  }
}
