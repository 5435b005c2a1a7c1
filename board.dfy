/**
 * The board component: a list of 64 square records built from the rules
 * engine's 8x8 grid, with per-square flags for the selected piece, the
 * squares it may move to, the last move and a king in check. The component
 * keeps its own chess instance, separate from the one of the screen that
 * shows it; a move made on the board is reported back to the screen as the
 * move object the board returns (the source's `onMove` callback).
 */
module BoardView {
  import opened Wrappers
  import opened Text
  import Chess

  const Dimension: nat := 8
  const ColumnNames: seq<char> := ['a', 'b', 'c', 'd', 'e', 'f', 'g', 'h']

  /** One entry of the board list: the grid cell spread into a record with its flags. */
  datatype Square = Square(
    piece: Chess.Cell,
    position: string,
    columnName: char,
    rowIndex: nat,
    columnIndex: nat,
    selected: bool,
    canMoveHere: bool,
    lastMove: bool,
    inCheck: bool)

  /** The label of the square in row `row` (0 is rank 8) and column `col` (0 is file a). */
  function PositionOf(row: nat, col: nat): string
    requires row < Dimension && col < Dimension
  {
    [ColumnNames[col]] + NatToString(Dimension - row)
  }

  /** Reads a square label back to its row-major index: file letter, then rank digit. */
  function SquareIndex(position: string): Option<nat>
  {
    if |position| == 2 && 'a' <= position[0] <= 'h' && '1' <= position[1] <= '8' then
      var col := (position[0] as int) - ('a' as int);
      var rank := (position[1] as int) - ('0' as int);
      Some(Dimension * (Dimension - rank) + col)
    else None
  }

  /** Labels are read back to the index they were made from, so no two squares share one. */
  lemma SquareIndexOfPosition(row: nat, col: nat)
    requires row < Dimension && col < Dimension
    ensures |PositionOf(row, col)| == 2
    ensures SquareIndex(PositionOf(row, col)) == Some(Dimension * row + col)
  {
    assert NatToString(Dimension - row) == [DigitChar(Dimension - row)];
  }

  lemma PositionsDistinct(r1: nat, c1: nat, r2: nat, c2: nat)
    requires r1 < Dimension && c1 < Dimension && r2 < Dimension && c2 < Dimension
    requires (r1, c1) != (r2, c2)
    ensures PositionOf(r1, c1) != PositionOf(r2, c2)
  {
    SquareIndexOfPosition(r1, c1);
    SquareIndexOfPosition(r2, c2);
  }

  /** The record `createBoardData` pushes for row `row`, column `col` of game `g`. */
  function SquareAt(g: Chess.Game, row: nat, col: nat): Square
    requires row < Dimension && col < Dimension
  {
    var cell := Chess.Board(g)[row][col];
    var h := g.history;
    var position := PositionOf(row, col);
    Square(cell, position, ColumnNames[col], row, col, false, false,
      |h| > 0 && (position == h[|h| - 1].to || position == h[|h| - 1].from),
      Chess.InCheck(g) && cell.Some? && cell.value.color == Chess.Turn(g) && cell.value.kind == Chess.King)
  }

  /** The board list of game `g`, in row-major order. */
  function BoardData(g: Chess.Game): (s: seq<Square>)
    ensures |s| == Dimension * Dimension
  {
    seq(Dimension * Dimension, k requires 0 <= k < Dimension * Dimension => SquareAt(g, k / Dimension, k % Dimension))
  }

  /** Every square sits at its row-major index and carries that index's label. */
  ghost predicate Layout(s: seq<Square>)
  {
    |s| == Dimension * Dimension &&
    forall k :: 0 <= k < |s| ==>
      s[k].rowIndex == k / Dimension && s[k].columnIndex == k % Dimension &&
      s[k].position == PositionOf(k / Dimension, k % Dimension)
  }

  ghost predicate HasSelection(s: seq<Square>)
  {
    exists k :: 0 <= k < |s| && s[k].selected
  }

  /** A move target is only ever marked together with a selected piece. */
  ghost predicate Coherent(s: seq<Square>)
  {
    (exists k :: 0 <= k < |s| && s[k].canMoveHere) ==> HasSelection(s)
  }

  /**
   * `createBoardData` walks the grid row by row and pushes one record per
   * cell; the result is the board list of the game.
   */
  method CreateBoardData(g: Chess.Game) returns (squares: seq<Square>)
    ensures squares == BoardData(g)
  {
    var board := Chess.Board(g);
    var history := g.history;
    var inCheck := Chess.InCheck(g);
    var turn := Chess.Turn(g);
    squares := [];
    var rowIndex := 0;
    while rowIndex < Dimension
      invariant 0 <= rowIndex <= Dimension
      invariant |squares| == Dimension * rowIndex
      invariant forall k :: 0 <= k < |squares| ==> squares[k] == SquareAt(g, k / Dimension, k % Dimension)
    {
      var columnIndex := 0;
      while columnIndex < Dimension
        invariant 0 <= columnIndex <= Dimension
        invariant |squares| == Dimension * rowIndex + columnIndex
        invariant forall k :: 0 <= k < |squares| ==> squares[k] == SquareAt(g, k / Dimension, k % Dimension)
      {
        var cell := board[rowIndex][columnIndex];
        var position := PositionOf(rowIndex, columnIndex);
        var lastMove := |history| > 0 && (position == history[|history| - 1].to || position == history[|history| - 1].from);
        var square := Square(cell, position, ColumnNames[columnIndex], rowIndex, columnIndex, false, false,
          lastMove, inCheck && cell.Some? && cell.value.color == turn && cell.value.kind == Chess.King);
        assert (Dimension * rowIndex + columnIndex) / Dimension == rowIndex;
        assert (Dimension * rowIndex + columnIndex) % Dimension == columnIndex;
        squares := squares + [square];
        columnIndex := columnIndex + 1;
      }
      rowIndex := rowIndex + 1;
    }
    assert squares == BoardData(g);
  }

  /** A freshly built board has the standard layout, and nothing selected or targeted. */
  lemma BoardDataFresh(g: Chess.Game)
    ensures Layout(BoardData(g)) && Coherent(BoardData(g))
    ensures forall k :: 0 <= k < |BoardData(g)| ==> !BoardData(g)[k].selected && !BoardData(g)[k].canMoveHere
  {
  }

  /** The board list holds 64 distinct labels, one per square. */
  lemma BoardDataPositionsDistinct(g: Chess.Game, i: nat, j: nat)
    requires i < j < |BoardData(g)|
    ensures BoardData(g)[i].position != BoardData(g)[j].position
  {
    PositionsDistinct(i / Dimension, i % Dimension, j / Dimension, j % Dimension);
  }

  /**
   * The last-move marker: nowhere on a game without history, and otherwise
   * exactly on the squares named by the last move's origin and destination.
   */
  lemma LastMoveMarks(g: Chess.Game)
    ensures g.history == [] ==> forall k :: 0 <= k < |BoardData(g)| ==> !BoardData(g)[k].lastMove
    ensures g.history != [] ==>
      var last := g.history[|g.history| - 1];
      forall k :: 0 <= k < |BoardData(g)| ==>
        (BoardData(g)[k].lastMove <==> SquareIndex(last.from) == Some(k) || SquareIndex(last.to) == Some(k))
  {
    if g.history != [] {
      var last := g.history[|g.history| - 1];
      forall k | 0 <= k < |BoardData(g)|
        ensures BoardData(g)[k].lastMove <==> SquareIndex(last.from) == Some(k) || SquareIndex(last.to) == Some(k)
      {
        var p := PositionOf(k / Dimension, k % Dimension);
        SquareIndexOfPosition(k / Dimension, k % Dimension);
        if SquareIndex(last.from) == Some(k) {
          SquareIndexExact(last.from, k / Dimension, k % Dimension);
        }
        if SquareIndex(last.to) == Some(k) {
          SquareIndexExact(last.to, k / Dimension, k % Dimension);
        }
      }
    }
  }

  /** A label that reads back to a square's index is that square's label. */
  lemma SquareIndexExact(position: string, row: nat, col: nat)
    requires row < Dimension && col < Dimension
    requires SquareIndex(position) == Some(Dimension * row + col)
    ensures position == PositionOf(row, col)
  {
    var c := (position[0] as int) - ('a' as int);
    var rank := (position[1] as int) - ('0' as int);
    assert Dimension * (Dimension - rank) + c == Dimension * row + col;
    assert c == col && Dimension - rank == row;
    assert NatToString(Dimension - row) == [DigitChar(Dimension - row)];
  }

  /**
   * The in-check marker is set exactly on the kings of the side to move,
   * and only while that side is in check.
   */
  lemma InCheckMarks(g: Chess.Game, k: nat)
    requires k < |BoardData(g)|
    ensures BoardData(g)[k].inCheck <==>
      Chess.InCheck(g) && BoardData(g)[k].piece == Some(Chess.Piece(Chess.King, Chess.Turn(g)))
  {
  }

  /** The first square satisfying `p`, as `Array.prototype.find` returns it. */
  function Find(s: seq<Square>, p: Square -> bool): (r: Option<nat>)
    ensures r.Some? ==> r.value < |s| && p(s[r.value])
    ensures r.Some? ==> forall j :: 0 <= j < r.value ==> !p(s[j])
    ensures r.None? ==> forall j :: 0 <= j < |s| ==> !p(s[j])
  {
    if s == [] then None
    else if p(s[0]) then Some(0)
    else
      var rest := Find(s[1..], p);
      if rest.Some? then Some(rest.value + 1) else None
  }

  function FindPosition(s: seq<Square>, position: string): Option<nat>
  {
    Find(s, (sq: Square) => sq.position == position)
  }

  function FindSelected(s: seq<Square>): Option<nat>
  {
    Find(s, (sq: Square) => sq.selected)
  }

  /**
   * The origin of a board move: an explicit (non-empty) `from` wins,
   * otherwise the selected square; with neither there is none.
   */
  function Origin(s: seq<Square>, from: string): (r: Option<string>)
    ensures from != "" ==> r == Some(from)
    ensures from == "" && HasSelection(s) ==>
      r.Some? && exists k :: 0 <= k < |s| && s[k].selected && s[k].position == r.value
    ensures from == "" && !HasSelection(s) ==> r.None?
  {
    if from != "" then Some(from)
    else
      match FindSelected(s)
      case Some(k) => Some(s[k].position)
      case None => None
  }

  /**
   * The new list `selectPiece` maps out for the tapped square: tapping the
   * selected piece clears every mark, tapping another piece selects it and
   * marks its legal destinations.
   */
  function Reselect(s: seq<Square>, tapped: Square, position: string, dests: seq<string>): (r: seq<Square>)
    ensures |r| == |s|
  {
    seq(|s|, k requires 0 <= k < |s| =>
      if tapped.selected then s[k].(selected := false, canMoveHere := false)
      else s[k].(selected := s[k].position == position, canMoveHere := s[k].position in dests))
  }

  /** Reselecting changes only the two selection flags of each square. */
  lemma ReselectKeepsSquares(s: seq<Square>, tapped: Square, position: string, dests: seq<string>)
    ensures forall k :: 0 <= k < |s| ==>
      Reselect(s, tapped, position, dests)[k] ==
      s[k].(selected := Reselect(s, tapped, position, dests)[k].selected,
            canMoveHere := Reselect(s, tapped, position, dests)[k].canMoveHere)
    ensures Layout(s) ==> Layout(Reselect(s, tapped, position, dests))
  {
  }

  /** Tapping an unselected piece selects exactly its square and targets exactly its destinations. */
  lemma ReselectSelects(s: seq<Square>, tapped: Square, position: string, dests: seq<string>)
    requires !tapped.selected
    ensures forall k :: 0 <= k < |s| ==>
      (Reselect(s, tapped, position, dests)[k].selected <==> s[k].position == position) &&
      (Reselect(s, tapped, position, dests)[k].canMoveHere <==> s[k].position in dests)
  {
  }

  /** Tapping the selected piece again clears every selection and every target. */
  lemma ReselectClears(s: seq<Square>, tapped: Square, position: string, dests: seq<string>)
    requires tapped.selected
    ensures forall k :: 0 <= k < |s| ==>
      !Reselect(s, tapped, position, dests)[k].selected && !Reselect(s, tapped, position, dests)[k].canMoveHere
  {
  }

  /** Either way the marks stay coherent, provided the tapped label is on the board. */
  lemma ReselectCoherent(s: seq<Square>, tapped: Square, position: string, dests: seq<string>)
    requires exists k :: 0 <= k < |s| && s[k].position == position
    ensures Coherent(Reselect(s, tapped, position, dests))
  {
    var k :| 0 <= k < |s| && s[k].position == position;
    if !tapped.selected {
      assert Reselect(s, tapped, position, dests)[k].selected;
    }
  }

  /** `if (newFen) game.load(newFen)`: an absent or empty FEN keeps the game. */
  function LoadIfGiven(g: Chess.Game, fen: Option<string>): (r: Chess.Game)
    ensures fen.Some? && fen.value != "" ==> r == Chess.Load(g, fen.value)
    ensures fen.None? || fen.value == "" ==> r == g
  {
    if fen.Some? && fen.value != "" then Chess.Load(g, fen.value) else g
  }

  /**
   * What tapping the piece at `position` does to a board with list `s` and
   * game `g`, given the screen's gate `admit`: the move it reports, and the
   * new game and list. A tapped move target is moved to from the selected
   * square; a piece the gate refuses leaves everything as it is; any other
   * piece toggles the selection. A label not on the board changes nothing.
   */
  ghost predicate SelectOutcome(s: seq<Square>, g: Chess.Game, position: string, admit: Square -> bool,
                                moved: Option<Chess.Request>, g2: Chess.Game, s2: seq<Square>)
  {
    match FindPosition(s, position)
    case None => moved.None? && g2 == g && s2 == s
    case Some(k) =>
      if s[k].canMoveHere then
        FindSelected(s).Some? &&
        moved == Some(Chess.Request(s[FindSelected(s).value].position, position, None)) &&
        g2 == Chess.Move(g, moved.value) && s2 == BoardData(g2)
      else if !admit(s[k]) then
        moved.None? && g2 == g && s2 == s
      else
        moved.None? && g2 == g && s2 == Reselect(s, s[k], position, Chess.Destinations(g, s[k].position))
  }

  /**
   * What a press on the square at `position` does: only a move target is
   * pressable, and it is moved to from the selected square.
   */
  ghost predicate PressOutcome(s: seq<Square>, g: Chess.Game, position: string,
                               moved: Option<Chess.Request>, g2: Chess.Game, s2: seq<Square>)
  {
    var found := FindPosition(s, position);
    if found.Some? && s[found.value].canMoveHere then
      FindSelected(s).Some? &&
      moved == Some(Chess.Request(s[FindSelected(s).value].position, position, None)) &&
      g2 == Chess.Move(g, moved.value) && s2 == BoardData(g2)
    else
      moved.None? && g2 == g && s2 == s
  }

  class Board {
    /** The component's own chess instance (`state.game`). */
    var game: Chess.Game
    /** The square list (`state.board`). */
    var squares: seq<Square>
    /** The `fen` prop last received. */
    var fen: Option<string>

    ghost predicate Valid()
      reads this
    {
      Layout(squares) && Coherent(squares)
    }

    constructor (rules: Chess.Rules, fen: Option<string>)
      ensures Valid()
      ensures game == LoadIfGiven(Chess.NewGame(rules, fen), fen)
      ensures squares == BoardData(game) && this.fen == fen
    {
      var g := Chess.NewGame(rules, fen);
      g := LoadIfGiven(g, fen);
      var s := CreateBoardData(g);
      BoardDataFresh(g);
      game, squares, this.fen := g, s, fen;
    }

    /** New props rebuild the list (and reload the game) only when the FEN changed. */
    method ReceiveProps(nextFen: Option<string>)
      requires Valid()
      modifies this
      ensures Valid() && fen == nextFen
      ensures nextFen == old(fen) ==> game == old(game) && squares == old(squares)
      ensures nextFen != old(fen) ==> game == LoadIfGiven(old(game), nextFen) && squares == BoardData(game)
    {
      if nextFen != fen {
        game := LoadIfGiven(game, nextFen);
        squares := CreateBoardData(game);
        BoardDataFresh(game);
      }
      fen := nextFen;
    }

    /**
     * `movePiece(to, from)`: moves on the component's own game from `from`
     * (or, when it is empty, from the selected square) to `to`, rebuilds the
     * list and returns the move object handed to `onMove`. With neither an
     * origin nor a selected square the source throws; nothing changes then.
     */
    method MovePiece(to: string, from: string) returns (moved: Option<Chess.Request>)
      requires Valid()
      modifies this
      ensures Valid() && fen == old(fen)
      ensures Origin(old(squares), from).None? ==> moved.None? && game == old(game) && squares == old(squares)
      ensures Origin(old(squares), from).Some? ==>
        moved == Some(Chess.Request(Origin(old(squares), from).value, to, None)) &&
        game == Chess.Move(old(game), moved.value) && squares == BoardData(game)
    {
      var origin := Origin(squares, from);
      if origin.None? {
        return None;
      }
      var moveConfig := Chess.Request(origin.value, to, None);
      game := Chess.Move(game, moveConfig);
      moved := Some(moveConfig);
      squares := CreateBoardData(game);
      BoardDataFresh(game);
    }

    /** `undo()`: takes back the component's last move and rebuilds the list. */
    method Undo()
      requires Valid()
      modifies this
      ensures Valid() && fen == old(fen)
      ensures game == Chess.Undo(old(game)) && squares == BoardData(game)
    {
      game := Chess.Undo(game);
      squares := CreateBoardData(game);
      BoardDataFresh(game);
    }

    /**
     * `selectPiece(position)` for a tapped piece. A square marked as a move
     * target is moved to from the selected square; a piece the screen's gate
     * `admit` refuses leaves the board as it is; any other piece toggles the
     * selection. A label not on the board throws in the source and changes
     * nothing here.
     */
    method SelectPiece(position: string, admit: Square -> bool) returns (moved: Option<Chess.Request>)
      requires Valid()
      modifies this
      ensures Valid() && fen == old(fen)
      ensures SelectOutcome(old(squares), old(game), position, admit, moved, game, squares)
    {
      var found := FindPosition(squares, position);
      if found.None? {
        return None;
      }
      var piece := squares[found.value];
      if piece.canMoveHere {
        assert HasSelection(squares);
        moved := MovePiece(position, "");
        return;
      }
      if !admit(piece) {
        return None;
      }
      var possibleMoves := Chess.Destinations(game, piece.position);
      ReselectKeepsSquares(squares, piece, position, possibleMoves);
      ReselectCoherent(squares, piece, position, possibleMoves);
      squares := Reselect(squares, piece, position, possibleMoves);
      moved := None;
    }

    /**
     * A press on an empty square: the square is only pressable while it is
     * a move target, and then it is moved to from the selected square.
     */
    method PressSquare(position: string) returns (moved: Option<Chess.Request>)
      requires Valid()
      modifies this
      ensures Valid() && fen == old(fen)
      ensures PressOutcome(old(squares), old(game), position, moved, game, squares)
    {
      var found := FindPosition(squares, position);
      if found.None? || !squares[found.value].canMoveHere {
        return None;
      }
      assert HasSelection(squares);
      moved := MovePiece(position, "");
    }
  }

  /**
   * Tapping the same admitted piece twice (with its own square not among
   * its destinations) first selects it and then clears every mark again.
   */
  lemma SelectTwiceClears(s: seq<Square>, k: nat, dests: seq<string>)
    requires k < |s| && !s[k].selected && s[k].position !in dests
    requires forall j :: 0 <= j < k ==> s[j].position != s[k].position
    ensures var once := Reselect(s, s[k], s[k].position, dests);
      FindPosition(once, s[k].position) == Some(k) && once[k].selected && !once[k].canMoveHere &&
      forall j :: 0 <= j < |s| ==>
        !Reselect(once, once[k], s[k].position, dests)[j].selected &&
        !Reselect(once, once[k], s[k].position, dests)[j].canMoveHere
  {
    var once := Reselect(s, s[k], s[k].position, dests);
    var f := FindPosition(once, s[k].position);
    assert once[k].position == s[k].position;
    assert forall j :: 0 <= j < k ==> once[j].position == s[j].position;
    assert f == Some(k);
  }

  /**
   * A tap never leaves a piece selected that the screen's gate refuses:
   * if every selected square holds an admitted piece before the tap, the
   * same holds after it.
   */
  lemma TapSelectsOnlyAdmitted(s: seq<Square>, g: Chess.Game, side: Option<Chess.Color>, position: string,
                               moved: Option<Chess.Request>, g2: Chess.Game, s2: seq<Square>)
    requires Layout(s)
    requires SelectOutcome(s, g, position, (sq: Square) => Chess.MaySelect(g, side, sq.piece), moved, g2, s2)
    requires forall j :: 0 <= j < |s| && s[j].selected ==> Chess.MaySelect(g, side, s[j].piece)
    ensures forall j :: 0 <= j < |s2| && s2[j].selected ==> Chess.MaySelect(g, side, s2[j].piece)
  {
    match FindPosition(s, position)
    case None =>
    case Some(k) =>
      if s[k].canMoveHere {
        BoardDataFresh(g2);
      } else if Chess.MaySelect(g, side, s[k].piece) && !s[k].selected {
        var dests := Chess.Destinations(g, s[k].position);
        assert s2 == Reselect(s, s[k], position, dests);
        forall j | 0 <= j < |s2| && s2[j].selected
          ensures Chess.MaySelect(g, side, s2[j].piece)
        {
          assert s2[j].position == position && s2[j].piece == s[j].piece;
          if j != k {
            assert (j / Dimension, j % Dimension) != (k / Dimension, k % Dimension);
            PositionsDistinct(j / Dimension, j % Dimension, k / Dimension, k % Dimension);
          }
        }
      }
  }
}
