/**
 * The offline game against a random mover. The local player is black, so
 * the computer moves first, half a second after mount; after each local
 * move that hands the turn over, another random move is scheduled. The
 * random move is any entry of the legal-move list. Scheduled moves are a
 * count of pending timers fired by an explicit step.
 */
module RandomOpponent {
  import opened Wrappers
  import Chess
  import BoardView

  const UserColor: Chess.Color := Chess.Black

  /** `makeRandomMove` gives up when the game is over, drawn, or has no legal move. */
  predicate Stalled(g: Chess.Game)
  {
    Chess.GameOver(g) || Chess.InDraw(g) || |Chess.Moves(g)| == 0
  }

  class RandomGame {
    const rules: Chess.Rules
    var game: Chess.Game
    /** The board, mounted with the screen. */
    var board: BoardView.Board
    /** `makeRandomMove` timers scheduled and not yet fired. */
    var pendingMoves: nat

    ghost predicate Valid()
      reads this, board
    {
      board.Valid()
    }

    /** The screen with its board mounted; `componentDidMount` schedules the first random move. */
    constructor (rules: Chess.Rules)
      ensures Valid() && this.rules == rules
      ensures game == Chess.NewGame(rules, None)
      ensures fresh(board) && board.game == Chess.NewGame(rules, None) && board.squares == BoardView.BoardData(board.game)
      ensures pendingMoves == 1
    {
      this.rules := rules;
      game := Chess.NewGame(rules, None);
      board := new BoardView.Board(rules, None);
      pendingMoves := 1;
    }

    /** `shouldSelectPiece`: black pieces, on black's turn, while the game is neither mate nor drawn. */
    function ShouldSelectPiece(square: BoardView.Square): (r: bool)
      reads this
      ensures r <==> (!Chess.InCheckmate(game) && !Chess.InDraw(game) && Chess.Turn(game) == UserColor &&
        square.piece.Some? && square.piece.value.color == UserColor)
    {
      Chess.MaySelect(game, Some(UserColor), square.piece)
    }

    /**
     * `onMove({ from, to })`: the move is played with a queen promotion
     * request, and a random reply is scheduled when the turn is no longer
     * the user's.
     */
    method OnMove(from: string, to: string)
      modifies this
      ensures game == Chess.Move(old(game), Chess.Request(from, to, Some(Chess.Queen)))
      ensures pendingMoves == old(pendingMoves) + (if Chess.Turn(game) != UserColor then 1 else 0)
      ensures board == old(board)
    {
      game := Chess.Move(game, Chess.Request(from, to, Some(Chess.Queen)));
      if Chess.Turn(game) != UserColor {
        pendingMoves := pendingMoves + 1;
      }
    }

    /**
     * `makeRandomMove`. Unless the game is stalled, one entry of the legal
     * move list, at the returned index, is played on the screen's game and
     * then on the board, whose report comes back through `onMove`.
     */
    method MakeRandomMove() returns (index: Option<nat>)
      requires Valid()
      modifies this, board
      ensures Valid() && board == old(board) && board.fen == old(board.fen)
      ensures index.None? <==> Stalled(old(game))
      ensures index.None? ==>
        game == old(game) && board.game == old(board.game) && board.squares == old(board.squares) &&
        pendingMoves == old(pendingMoves)
      ensures index.Some? ==>
        index.value < |Chess.Moves(old(game))| &&
        var m := Chess.Moves(old(game))[index.value];
        var played := Chess.Move(old(game), Chess.AsRequest(m));
        var origin := BoardView.Origin(old(board.squares), m.from);
        (origin.None? ==>
          game == played && board.game == old(board.game) && board.squares == old(board.squares) &&
          pendingMoves == old(pendingMoves)) &&
        (origin.Some? ==>
          board.game == Chess.Move(old(board.game), Chess.Request(origin.value, m.to, None)) &&
          board.squares == BoardView.BoardData(board.game) &&
          game == Chess.Move(played, Chess.Request(origin.value, m.to, Some(Chess.Queen))) &&
          pendingMoves == old(pendingMoves) + (if Chess.Turn(game) != UserColor then 1 else 0))
    {
      var possibleMoves := Chess.Moves(game);
      if Chess.GameOver(game) || Chess.InDraw(game) || |possibleMoves| == 0 {
        return None;
      }
      var randomIndex :| 0 <= randomIndex < |possibleMoves|;
      var randomMove := possibleMoves[randomIndex];
      game := Chess.Move(game, Chess.AsRequest(randomMove));
      var moved := board.MovePiece(randomMove.to, randomMove.from);
      if moved.Some? {
        OnMove(moved.value.from, moved.value.to);
      }
      index := Some(randomIndex);
    }

    /**
     * A scheduled random-move timer fires: the timer leaves the count and
     * `makeRandomMove` runs. The move it picks always applies on the
     * screen's game and hands the turn over.
     */
    method FireRandomMove() returns (index: Option<nat>)
      requires Valid() && pendingMoves > 0
      modifies this, board
      ensures Valid() && board == old(board) && board.fen == old(board.fen)
      ensures index.None? <==> Stalled(old(game))
      ensures index.None? ==>
        game == old(game) && board.game == old(board.game) && board.squares == old(board.squares) &&
        pendingMoves == old(pendingMoves) - 1
      ensures index.Some? ==>
        index.value < |Chess.Moves(old(game))| &&
        var m := Chess.Moves(old(game))[index.value];
        var played := Chess.Move(old(game), Chess.AsRequest(m));
        var origin := BoardView.Origin(old(board.squares), m.from);
        |played.history| == |old(game.history)| + 1 && Chess.Turn(played) == Chess.Opponent(Chess.Turn(old(game))) &&
        (origin.None? ==>
          game == played && board.game == old(board.game) && board.squares == old(board.squares) &&
          pendingMoves == old(pendingMoves) - 1) &&
        (origin.Some? ==>
          board.game == Chess.Move(old(board.game), Chess.Request(origin.value, m.to, None)) &&
          board.squares == BoardView.BoardData(board.game) &&
          game == Chess.Move(played, Chess.Request(origin.value, m.to, Some(Chess.Queen))) &&
          pendingMoves == old(pendingMoves) - 1 + (if Chess.Turn(game) != UserColor then 1 else 0))
    {
      pendingMoves := pendingMoves - 1;
      ghost var before := game;
      index := MakeRandomMove();
      if index.Some? {
        Chess.LegalMoveApplies(before, Chess.Moves(before)[index.value]);
      }
    }

    /** A tap on a piece, gated by `shouldSelectPiece`. */
    method TapPiece(position: string) returns (moved: Option<Chess.Request>)
      requires Valid()
      modifies this, board
      ensures Valid() && board == old(board) && board.fen == old(board.fen)
      ensures BoardView.SelectOutcome(old(board.squares), old(board.game), position,
        (sq: BoardView.Square) => Chess.MaySelect(old(game), Some(UserColor), sq.piece),
        moved, board.game, board.squares)
      ensures moved.None? ==> game == old(game) && pendingMoves == old(pendingMoves)
      ensures moved.Some? ==>
        game == Chess.Move(old(game), Chess.Request(moved.value.from, moved.value.to, Some(Chess.Queen))) &&
        pendingMoves == old(pendingMoves) + (if Chess.Turn(game) != UserColor then 1 else 0)
    {
      var g := game;
      moved := board.SelectPiece(position, (sq: BoardView.Square) => Chess.MaySelect(g, Some(UserColor), sq.piece));
      if moved.Some? {
        OnMove(moved.value.from, moved.value.to);
      }
    }

    /** A press on a move target. */
    method TapSquare(position: string) returns (moved: Option<Chess.Request>)
      requires Valid()
      modifies this, board
      ensures Valid() && board == old(board) && board.fen == old(board.fen)
      ensures BoardView.PressOutcome(old(board.squares), old(board.game), position, moved, board.game, board.squares)
      ensures moved.None? ==> game == old(game) && pendingMoves == old(pendingMoves)
      ensures moved.Some? ==>
        game == Chess.Move(old(game), Chess.Request(moved.value.from, moved.value.to, Some(Chess.Queen))) &&
        pendingMoves == old(pendingMoves) + (if Chess.Turn(game) != UserColor then 1 else 0)
    {
      moved := board.PressSquare(position);
      if moved.Some? {
        OnMove(moved.value.from, moved.value.to);
      }
    }
  }
}
