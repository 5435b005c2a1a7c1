/**
 * The screen for a game against a friend. It creates a challenge, listens
 * on the challenge's socket, plays the opponent's moves it is told about
 * on the board, sends the local player's moves, and, on the first
 * `reload` with `v` 3, fetches the game and moves to the game's socket.
 * The local player is white. Server responses, socket opening and the
 * heartbeat interval firing are explicit steps.
 */
module PlayerVsFriend {
  import opened Wrappers
  import Chess
  import BoardView
  import Lichess

  class FriendScreen {
    const rules: Chess.Rules
    /** The random client id sent as `sri`; its generation is not modelled. */
    const clientId: string
    var game: Chess.Game
    var initialized: bool
    var invitationId: string
    /** The mounted board; it appears with the first render after `initialized`. */
    var board: BoardView.Board?
    /** The challenge id the first socket was created with. */
    var challengeId: Option<string>
    /** Latched by the first `reload` with `v` 3. */
    var gameFetched: bool
    /** The game fetch of the reload handshake is waiting for its response. */
    var fetchPending: bool
    /** The address of the current socket (`this.ws`). */
    var socketUrl: Option<string>
    /** The ping interval is running. */
    var heartbeatActive: bool
    /** Every message sent, in order. */
    var sent: seq<Lichess.Outbound>

    ghost predicate Valid()
      reads this, board
    {
      (board != null ==> board.Valid() && initialized) &&
      (initialized ==> socketUrl.Some? && challengeId.Some?) &&
      (fetchPending ==> gameFetched)
    }

    /** The constructor's state: a fresh game, nothing created yet. */
    constructor (rules: Chess.Rules, clientId: string)
      ensures Valid() && this.rules == rules && this.clientId == clientId
      ensures game == Chess.NewGame(rules, None) && !initialized && invitationId == ""
      ensures board == null && challengeId.None? && socketUrl.None?
      ensures !gameFetched && !fetchPending && !heartbeatActive && sent == []
    {
      this.rules, this.clientId := rules, clientId;
      game := Chess.NewGame(rules, None);
      initialized, invitationId := false, "";
      board := null;
      challengeId, socketUrl := None, None;
      gameFetched, fetchPending, heartbeatActive := false, false, false;
      sent := [];
    }

    /**
     * The challenge was created: the socket for it is opened at the fixed
     * challenge address, the screen is initialized with the challenge id as
     * the invitation, and the render that follows mounts the board.
     */
    method OnChallengeCreated(id: string)
      requires Valid()
      modifies this
      ensures Valid()
      ensures socketUrl == Some(Lichess.ChallengeSocketUrl(id, clientId)) && challengeId == Some(id)
      ensures initialized && invitationId == id
      ensures old(board) == null ==>
        fresh(board) && board.game == Chess.NewGame(rules, None) &&
        board.squares == BoardView.BoardData(board.game) && board.fen.None?
      ensures old(board) != null ==> board == old(board)
      ensures game == old(game) && sent == old(sent) && heartbeatActive == old(heartbeatActive)
      ensures gameFetched == old(gameFetched) && fetchPending == old(fetchPending)
    {
      socketUrl := Some(Lichess.ChallengeSocketUrl(id, clientId));
      challengeId := Some(id);
      initialized, invitationId := true, id;
      if board == null {
        board := new BoardView.Board(rules, None);
      }
    }

    /** `onopen`: the ping interval starts. */
    method OnSocketOpen()
      requires Valid() && socketUrl.Some?
      modifies this
      ensures Valid() && heartbeatActive
      ensures game == old(game) && sent == old(sent) && board == old(board) && socketUrl == old(socketUrl)
      ensures gameFetched == old(gameFetched) && fetchPending == old(fetchPending) && initialized == old(initialized)
      ensures invitationId == old(invitationId) && challengeId == old(challengeId)
    {
      heartbeatActive := true;
    }

    /** The ping interval fires: the heartbeat goes out on the current socket. */
    method OnHeartbeat()
      requires Valid() && heartbeatActive
      modifies this
      ensures Valid() && sent == old(sent) + [Lichess.Heartbeat]
      ensures game == old(game) && board == old(board) && socketUrl == old(socketUrl)
      ensures heartbeatActive && gameFetched == old(gameFetched) && fetchPending == old(fetchPending)
      ensures initialized == old(initialized) && invitationId == old(invitationId) && challengeId == old(challengeId)
    {
      sent := sent + [Lichess.Heartbeat];
    }

    /**
     * `onMove({ from, to })` from the board: the move is played on the
     * screen's game and sent when it hands the turn to black.
     */
    method OnMove(from: string, to: string)
      requires Valid()
      modifies this
      ensures Valid()
      ensures game == Chess.Move(old(game), Chess.Request(from, to, None))
      ensures var out := Lichess.MoveToSend(Chess.Turn(game), from, to);
        sent == old(sent) + (if out.Some? then [out.value] else [])
      ensures board == old(board) && socketUrl == old(socketUrl) && heartbeatActive == old(heartbeatActive)
      ensures gameFetched == old(gameFetched) && fetchPending == old(fetchPending) && initialized == old(initialized)
      ensures invitationId == old(invitationId) && challengeId == old(challengeId)
    {
      game := Chess.Move(game, Chess.Request(from, to, None));
      if Chess.Turn(game) == Chess.Black {
        sent := sent + [Lichess.MoveOut(from, to)];
      }
    }

    /** `shouldSelectPiece`: white pieces, on white's turn, while the game is neither mate nor drawn. */
    function ShouldSelectPiece(square: BoardView.Square): (r: bool)
      reads this
      ensures r <==> (!Chess.InCheckmate(game) && !Chess.InDraw(game) && Chess.Turn(game) == Chess.White &&
        square.piece.Some? && square.piece.value.color == Chess.White)
    {
      Chess.MaySelect(game, Some(Chess.White), square.piece)
    }

    /**
     * `onmessage`. The first `reload` with `v` 3 latches `gameFetched` and
     * starts the game fetch; then an opponent move the message carries is
     * played on the board, whose report comes back through `onMove`. With
     * no board mounted the source throws at that point.
     */
    method OnMessage(m: Lichess.Inbound) returns (moved: Option<Chess.Request>)
      requires Valid()
      modifies this, board
      ensures Valid() && board == old(board) && socketUrl == old(socketUrl)
      ensures heartbeatActive == old(heartbeatActive) && initialized == old(initialized)
      ensures invitationId == old(invitationId) && challengeId == old(challengeId)
      ensures board != null ==> board.fen == old(board.fen)
      ensures gameFetched == (old(gameFetched) || m == Lichess.ReloadEvent(Some(3)))
      ensures fetchPending == (old(fetchPending) || Lichess.StartsReload(m, old(gameFetched)))
      ensures Lichess.BoardMoveOf(m).None? || board == null ==>
        moved.None? && game == old(game) && sent == old(sent) &&
        (board != null ==> board.game == old(board.game) && board.squares == old(board.squares))
      ensures Lichess.BoardMoveOf(m).Some? && board != null ==>
        var (to, from) := Lichess.BoardMoveOf(m).value;
        var origin := BoardView.Origin(old(board.squares), from);
        (origin.None? ==>
           moved.None? && game == old(game) && sent == old(sent) &&
           board.game == old(board.game) && board.squares == old(board.squares)) &&
        (origin.Some? ==>
           moved == Some(Chess.Request(origin.value, to, None)) &&
           board.game == Chess.Move(old(board.game), moved.value) &&
           board.squares == BoardView.BoardData(board.game) &&
           game == Chess.Move(old(game), moved.value) &&
           var out := Lichess.MoveToSend(Chess.Turn(game), origin.value, to);
           sent == old(sent) + (if out.Some? then [out.value] else []))
    {
      if Lichess.StartsReload(m, gameFetched) {
        gameFetched := true;
        fetchPending := true;
      }
      moved := None;
      var boardMove := Lichess.BoardMoveOf(m);
      if boardMove.Some? && board != null {
        var (to, from) := boardMove.value;
        moved := board.MovePiece(to, from);
        if moved.Some? {
          OnMove(moved.value.from, moved.value.to);
        }
      }
    }

    /**
     * The response of the reload handshake's game fetch. A non-empty socket
     * path replaces the socket: the heartbeat is cleared first and the new
     * socket gets the address built from the path and the client id.
     */
    method OnGameFetched(socketPath: Option<string>)
      requires Valid() && fetchPending
      modifies this
      ensures Valid() && !fetchPending && gameFetched
      ensures socketPath.Some? && socketPath.value != "" ==>
        socketUrl == Some(Lichess.SocketUrl(socketPath.value, clientId)) && !heartbeatActive
      ensures socketPath.None? || socketPath.value == "" ==>
        socketUrl == old(socketUrl) && heartbeatActive == old(heartbeatActive)
      ensures game == old(game) && sent == old(sent) && board == old(board) && initialized == old(initialized)
      ensures invitationId == old(invitationId) && challengeId == old(challengeId)
    {
      fetchPending := false;
      if socketPath.Some? && socketPath.value != "" {
        heartbeatActive := false;
        socketUrl := Some(Lichess.SocketUrl(socketPath.value, clientId));
      }
    }

    /** A tap on a piece of the mounted board, gated by `shouldSelectPiece`. */
    method TapPiece(position: string) returns (moved: Option<Chess.Request>)
      requires Valid() && board != null
      modifies this, board
      ensures Valid() && board == old(board) && socketUrl == old(socketUrl) && board.fen == old(board.fen)
      ensures invitationId == old(invitationId) && challengeId == old(challengeId) && initialized == old(initialized)
      ensures heartbeatActive == old(heartbeatActive) && gameFetched == old(gameFetched) && fetchPending == old(fetchPending)
      ensures BoardView.SelectOutcome(old(board.squares), old(board.game), position,
        (sq: BoardView.Square) => Chess.MaySelect(old(game), Some(Chess.White), sq.piece),
        moved, board.game, board.squares)
      ensures moved.None? ==> game == old(game) && sent == old(sent)
      ensures moved.Some? ==>
        game == Chess.Move(old(game), Chess.Request(moved.value.from, moved.value.to, None)) &&
        var out := Lichess.MoveToSend(Chess.Turn(game), moved.value.from, moved.value.to);
        sent == old(sent) + (if out.Some? then [out.value] else [])
    {
      var g := game;
      moved := board.SelectPiece(position, (sq: BoardView.Square) => Chess.MaySelect(g, Some(Chess.White), sq.piece));
      if moved.Some? {
        OnMove(moved.value.from, moved.value.to);
      }
    }

    /** A press on a move target of the mounted board. */
    method TapSquare(position: string) returns (moved: Option<Chess.Request>)
      requires Valid() && board != null
      modifies this, board
      ensures Valid() && board == old(board) && socketUrl == old(socketUrl) && board.fen == old(board.fen)
      ensures invitationId == old(invitationId) && challengeId == old(challengeId) && initialized == old(initialized)
      ensures heartbeatActive == old(heartbeatActive) && gameFetched == old(gameFetched) && fetchPending == old(fetchPending)
      ensures BoardView.PressOutcome(old(board.squares), old(board.game), position, moved, board.game, board.squares)
      ensures moved.None? ==> game == old(game) && sent == old(sent)
      ensures moved.Some? ==>
        game == Chess.Move(old(game), Chess.Request(moved.value.from, moved.value.to, None)) &&
        var out := Lichess.MoveToSend(Chess.Turn(game), moved.value.from, moved.value.to);
        sent == old(sent) + (if out.Some? then [out.value] else [])
    {
      moved := board.PressSquare(position);
      if moved.Some? {
        OnMove(moved.value.from, moved.value.to);
      }
    }
  }

  /**
   * The number of messages in `ms` that start the reload handshake, when
   * they arrive in order with the latch initially at `fetched`.
   */
  function ReloadStarts(ms: seq<Lichess.Inbound>, fetched: bool): nat
  {
    if ms == [] then 0
    else
      (if Lichess.StartsReload(ms[0], fetched) then 1 else 0) +
      ReloadStarts(ms[1..], fetched || ms[0] == Lichess.ReloadEvent(Some(3)))
  }

  /** The reload handshake runs at most once per screen, and never once the latch is set. */
  lemma {:induction false} ReloadAtMostOnce(ms: seq<Lichess.Inbound>, fetched: bool)
    ensures ReloadStarts(ms, fetched) <= (if fetched then 0 else 1)
    decreases |ms|
  {
    if ms != [] {
      ReloadAtMostOnce(ms[1..], fetched || ms[0] == Lichess.ReloadEvent(Some(3)));
      LatchedNoReload(ms[1..]);
    }
  }

  lemma {:induction false} LatchedNoReload(ms: seq<Lichess.Inbound>)
    ensures ReloadStarts(ms, true) == 0
    decreases |ms|
  {
    if ms != [] {
      LatchedNoReload(ms[1..]);
    }
  }
}
