/**
 * The screen for a game against the server's engine. The game is created
 * over HTTP; its response names the socket path, the screen opens the
 * socket and becomes initialized when the socket opens. Opponent moves the
 * server reports are played on the board; the local player's moves are
 * sent with a queen promotion request. The local player is white.
 */
module PlayerVsAI {
  import opened Wrappers
  import Chess
  import BoardView
  import Lichess

  class AIScreen {
    const rules: Chess.Rules
    var game: Chess.Game
    var initialized: bool
    /** The mounted board; it appears with the first render after `initialized` and goes on unmount. */
    var board: BoardView.Board?
    /** The address of the socket (`this.ws`). */
    var socketUrl: Option<string>
    /** The ping interval is running. */
    var heartbeatActive: bool
    /** Every message sent, in order. */
    var sent: seq<Lichess.Outbound>

    ghost predicate Valid()
      reads this, board
    {
      (board != null ==> board.Valid() && initialized) &&
      (initialized ==> socketUrl.Some?)
    }

    constructor (rules: Chess.Rules)
      ensures Valid() && this.rules == rules
      ensures game == Chess.NewGame(rules, None) && !initialized && board == null
      ensures socketUrl.None? && !heartbeatActive && sent == []
    {
      this.rules := rules;
      game := Chess.NewGame(rules, None);
      initialized := false;
      board := null;
      socketUrl := None;
      heartbeatActive := false;
      sent := [];
    }

    /**
     * `onGameCreated`: the socket is opened at the address built from the
     * game's socket path and a fresh random client id.
     */
    method OnGameCreated(socketPath: string, clientId: string)
      requires Valid()
      modifies this
      ensures Valid() && socketUrl == Some(Lichess.SocketUrl(socketPath, clientId))
      ensures game == old(game) && initialized == old(initialized) && board == old(board)
      ensures heartbeatActive == old(heartbeatActive) && sent == old(sent)
    {
      socketUrl := Some(Lichess.SocketUrl(socketPath, clientId));
    }

    /**
     * `onopen`: the screen becomes initialized (its render mounts the
     * board) and the ping interval starts.
     */
    method OnSocketOpen()
      requires Valid() && socketUrl.Some?
      modifies this
      ensures Valid() && initialized && heartbeatActive && board != null
      ensures old(board) == null ==>
        fresh(board) && board.game == Chess.NewGame(rules, None) &&
        board.squares == BoardView.BoardData(board.game) && board.fen.None?
      ensures old(board) != null ==> board == old(board)
      ensures game == old(game) && sent == old(sent) && socketUrl == old(socketUrl)
    {
      initialized := true;
      if board == null {
        board := new BoardView.Board(rules, None);
      }
      heartbeatActive := true;
    }

    /** The ping interval fires: the heartbeat goes out. */
    method OnHeartbeat()
      requires Valid() && heartbeatActive
      modifies this
      ensures Valid() && sent == old(sent) + [Lichess.Heartbeat]
      ensures game == old(game) && board == old(board) && socketUrl == old(socketUrl)
      ensures heartbeatActive && initialized == old(initialized)
    {
      sent := sent + [Lichess.Heartbeat];
    }

    /** `componentWillUnmount`: the interval is cleared; the board goes with the screen. */
    method Unmount()
      requires Valid()
      modifies this
      ensures Valid() && !heartbeatActive && board == null
      ensures game == old(game) && sent == old(sent) && socketUrl == old(socketUrl) && initialized == old(initialized)
    {
      heartbeatActive := false;
      board := null;
    }

    /**
     * `onMove({ from, to })` from the board: the move is played on the
     * screen's game with a queen promotion request and sent when it hands
     * the turn to black.
     */
    method OnMove(from: string, to: string)
      requires Valid()
      modifies this
      ensures Valid()
      ensures game == Chess.Move(old(game), Chess.Request(from, to, Some(Chess.Queen)))
      ensures var out := Lichess.MoveToSend(Chess.Turn(game), from, to);
        sent == old(sent) + (if out.Some? then [out.value] else [])
      ensures board == old(board) && socketUrl == old(socketUrl) && heartbeatActive == old(heartbeatActive)
      ensures initialized == old(initialized)
    {
      game := Chess.Move(game, Chess.Request(from, to, Some(Chess.Queen)));
      if Chess.Turn(game) == Chess.Black {
        sent := sent + [Lichess.MoveOut(from, to)];
      }
    }

    /** `shouldSelectPiece`: white pieces, on white's turn, while the game is neither mate nor drawn. */
    function ShouldSelectPiece(square: BoardView.Square): (r: bool)
      reads this
      ensures r <==> (!Chess.InCheckmate(game) && !Chess.InDraw(game) && Chess.Turn(game) == Chess.White &&
        square.piece.Some? && square.piece.value.color == Chess.White)
    {
      Chess.MaySelect(game, Some(Chess.White), square.piece)
    }

    /**
     * `onmessage`: an opponent move the message carries is played on the
     * board, whose report comes back through `onMove`. With no board
     * mounted the source throws at that point.
     */
    method OnMessage(m: Lichess.Inbound) returns (moved: Option<Chess.Request>)
      requires Valid()
      modifies this, board
      ensures Valid() && board == old(board) && socketUrl == old(socketUrl)
      ensures heartbeatActive == old(heartbeatActive) && initialized == old(initialized)
      ensures board != null ==> board.fen == old(board.fen)
      ensures Lichess.BoardMoveOf(m).None? || board == null ==>
        moved.None? && game == old(game) && sent == old(sent) &&
        (board != null ==> board.game == old(board.game) && board.squares == old(board.squares))
      ensures Lichess.BoardMoveOf(m).Some? && board != null ==>
        var (to, from) := Lichess.BoardMoveOf(m).value;
        var origin := BoardView.Origin(old(board.squares), from);
        (origin.None? ==>
           moved.None? && game == old(game) && sent == old(sent) &&
           board.game == old(board.game) && board.squares == old(board.squares)) &&
        (origin.Some? ==>
           moved == Some(Chess.Request(origin.value, to, None)) &&
           board.game == Chess.Move(old(board.game), moved.value) &&
           board.squares == BoardView.BoardData(board.game) &&
           game == Chess.Move(old(game), Chess.Request(origin.value, to, Some(Chess.Queen))) &&
           var out := Lichess.MoveToSend(Chess.Turn(game), origin.value, to);
           sent == old(sent) + (if out.Some? then [out.value] else []))
    {
      moved := None;
      var boardMove := Lichess.BoardMoveOf(m);
      if boardMove.Some? && board != null {
        var (to, from) := boardMove.value;
        moved := board.MovePiece(to, from);
        if moved.Some? {
          OnMove(moved.value.from, moved.value.to);
        }
      }
    }

    /** A tap on a piece of the mounted board, gated by `shouldSelectPiece`. */
    method TapPiece(position: string) returns (moved: Option<Chess.Request>)
      requires Valid() && board != null
      modifies this, board
      ensures Valid() && board == old(board) && socketUrl == old(socketUrl) && board.fen == old(board.fen)
      ensures initialized == old(initialized) && heartbeatActive == old(heartbeatActive)
      ensures BoardView.SelectOutcome(old(board.squares), old(board.game), position,
        (sq: BoardView.Square) => Chess.MaySelect(old(game), Some(Chess.White), sq.piece),
        moved, board.game, board.squares)
      ensures moved.None? ==> game == old(game) && sent == old(sent)
      ensures moved.Some? ==>
        game == Chess.Move(old(game), Chess.Request(moved.value.from, moved.value.to, Some(Chess.Queen))) &&
        var out := Lichess.MoveToSend(Chess.Turn(game), moved.value.from, moved.value.to);
        sent == old(sent) + (if out.Some? then [out.value] else [])
    {
      var g := game;
      moved := board.SelectPiece(position, (sq: BoardView.Square) => Chess.MaySelect(g, Some(Chess.White), sq.piece));
      if moved.Some? {
        OnMove(moved.value.from, moved.value.to);
      }
    }

    /** A press on a move target of the mounted board. */
    method TapSquare(position: string) returns (moved: Option<Chess.Request>)
      requires Valid() && board != null
      modifies this, board
      ensures Valid() && board == old(board) && socketUrl == old(socketUrl) && board.fen == old(board.fen)
      ensures initialized == old(initialized) && heartbeatActive == old(heartbeatActive)
      ensures BoardView.PressOutcome(old(board.squares), old(board.game), position, moved, board.game, board.squares)
      ensures moved.None? ==> game == old(game) && sent == old(sent)
      ensures moved.Some? ==>
        game == Chess.Move(old(game), Chess.Request(moved.value.from, moved.value.to, Some(Chess.Queen))) &&
        var out := Lichess.MoveToSend(Chess.Turn(game), moved.value.from, moved.value.to);
        sent == old(sent) + (if out.Some? then [out.value] else [])
    {
      moved := board.PressSquare(position);
      if moved.Some? {
        OnMove(moved.value.from, moved.value.to);
      }
    }
  }
}
