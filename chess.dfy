/**
 * The chess rules engine (chess.js) as an abstract oracle. A game is its
 * starting position (a FEN string) plus the history of applied moves; the
 * rules themselves (legal moves, check, checkmate, draw, the 8x8 board) are
 * supplied as total functions of that pair and are not derived here. The
 * side to move is read off the starting position and alternates with each
 * applied move.
 */
module Chess {
  import opened Wrappers

  datatype Color = White | Black

  function Opponent(c: Color): (o: Color)
    ensures o != c
  {
    if c == White then Black else White
  }

  /** A server/puzzle colour name: 'white' gives 'w', every other name gives 'b'. */
  function ColorOfName(name: string): (c: Color)
    ensures c == White <==> name == "white"
  {
    if name == "white" then White else Black
  }

  datatype PieceKind = Pawn | Knight | Bishop | Rook | Queen | King

  datatype Piece = Piece(kind: PieceKind, color: Color)

  /** What `game.board()` reports for one square. */
  type Cell = Option<Piece>

  type Row = r: seq<Cell> | |r| == 8
    witness [None, None, None, None, None, None, None, None]

  /** `game.board()`: eight rows of eight cells, rank 8 first, file a first. */
  type Grid = g: seq<Row> | |g| == 8
    witness var r: Row := [None, None, None, None, None, None, None, None]; [r, r, r, r, r, r, r, r]

  /** An applied move as `history({ verbose: true })` and `moves({ verbose: true })` report it. */
  datatype Ply = Ply(from: string, to: string, promotion: Option<PieceKind>)

  /** The move object handed to `game.move({ from, to, promotion })`. */
  datatype Request = Request(from: string, to: string, promotion: Option<PieceKind>)

  /** The oracle: every rules question is answered from (starting FEN, history). */
  datatype Rules = Rules(
    startTurn: string -> Color,
    legal: (string, seq<Ply>) -> seq<Ply>,
    inCheck: (string, seq<Ply>) -> bool,
    inCheckmate: (string, seq<Ply>) -> bool,
    inDraw: (string, seq<Ply>) -> bool,
    gameOver: (string, seq<Ply>) -> bool,
    board: (string, seq<Ply>) -> Grid)

  /** One chess.js instance. */
  datatype Game = Game(rules: Rules, fen: string, history: seq<Ply>)

  /** The position `new Chess()` starts from when no FEN is given. */
  const DefaultPosition: string := "rnbqkbnr/pppppppp/8/8/8/8/PPPPPPPP/RNBQKBNR w KQkq - 0 1"

  /** `new Chess(fen)`; an absent FEN gives the standard starting position. */
  function NewGame(rules: Rules, fen: Option<string>): (g: Game)
    ensures g.rules == rules && g.history == []
    ensures g.fen == if fen.Some? then fen.value else DefaultPosition
  {
    Game(rules, if fen.Some? then fen.value else DefaultPosition, [])
  }

  /** `game.load(fen)`: the new position replaces the old one and the history is emptied. */
  function Load(g: Game, fen: string): (r: Game)
    ensures r.rules == g.rules && r.fen == fen && r.history == []
  {
    Game(g.rules, fen, [])
  }

  function Turn(g: Game): Color
  {
    var first := g.rules.startTurn(g.fen);
    if |g.history| % 2 == 0 then first else Opponent(first)
  }

  function Moves(g: Game): seq<Ply> { g.rules.legal(g.fen, g.history) }
  predicate InCheck(g: Game) { g.rules.inCheck(g.fen, g.history) }
  predicate InCheckmate(g: Game) { g.rules.inCheckmate(g.fen, g.history) }
  predicate InDraw(g: Game) { g.rules.inDraw(g.fen, g.history) }
  predicate GameOver(g: Game) { g.rules.gameOver(g.fen, g.history) }
  function Board(g: Game): Grid { g.rules.board(g.fen, g.history) }

  /** `game.moves({ square, verbose: true }).map(m => m.to)`. */
  function Destinations(g: Game, square: string): (r: seq<string>)
    ensures forall t :: t in r <==> exists m :: m in Moves(g) && m.from == square && m.to == t
  {
    DestinationsIn(Moves(g), square)
  }

  function DestinationsIn(ms: seq<Ply>, square: string): (r: seq<string>)
    ensures forall t :: t in r <==> exists m :: m in ms && m.from == square && m.to == t
  {
    if ms == [] then []
    else
      var rest := DestinationsIn(ms[1..], square);
      assert forall m :: m in ms <==> m == ms[0] || m in ms[1..];
      if ms[0].from == square then [ms[0].to] + rest else rest
  }

  /**
   * chess.js matches a move object against the legal moves: origin and
   * destination must agree, and a promoting move needs the same promotion.
   */
  predicate Matches(m: Ply, req: Request)
  {
    m.from == req.from && m.to == req.to && (m.promotion.None? || m.promotion == req.promotion)
  }

  /** The index of the first legal move that the request matches. */
  function FindMatch(ms: seq<Ply>, req: Request): (r: Option<nat>)
    ensures r.Some? ==> r.value < |ms| && Matches(ms[r.value], req)
    ensures r.Some? ==> forall j :: 0 <= j < r.value ==> !Matches(ms[j], req)
    ensures r.None? ==> forall m :: m in ms ==> !Matches(m, req)
  {
    if ms == [] then None
    else if Matches(ms[0], req) then Some(0)
    else
      var rest := FindMatch(ms[1..], req);
      if rest.Some? then Some(rest.value + 1) else None
  }

  /** `game.move(req)`: applies the first matching legal move; an illegal request changes nothing. */
  function Move(g: Game, req: Request): (r: Game)
    ensures r.rules == g.rules && r.fen == g.fen
    ensures r == g <==> forall m :: m in Moves(g) ==> !Matches(m, req)
    ensures r != g ==> exists m :: m in Moves(g) && Matches(m, req) && r.history == g.history + [m]
  {
    match FindMatch(Moves(g), req)
    case None => g
    case Some(i) =>
      var r := Game(g.rules, g.fen, g.history + [Moves(g)[i]]);
      assert |r.history| != |g.history|;
      r
  }

  /** `game.undo()`: takes back the last move; with no history it changes nothing. */
  function Undo(g: Game): (r: Game)
    ensures r.rules == g.rules && r.fen == g.fen
    ensures |g.history| > 0 ==> r.history == g.history[..|g.history| - 1]
    ensures |g.history| == 0 ==> r == g
  {
    if |g.history| == 0 then g else Game(g.rules, g.fen, g.history[..|g.history| - 1])
  }

  /** An applied move hands the turn to the other side. */
  lemma MoveFlipsTurn(g: Game, req: Request)
    requires Move(g, req) != g
    ensures Turn(Move(g, req)) == Opponent(Turn(g))
  {
    var r := Move(g, req);
    assert |r.history| == |g.history| + 1;
  }

  /** Undoing an applied move gives back the game exactly as it was. */
  lemma UndoAfterMove(g: Game, req: Request)
    requires Move(g, req) != g
    ensures Undo(Move(g, req)) == g
  {
    var r := Move(g, req);
    var m :| m in Moves(g) && Matches(m, req) && r.history == g.history + [m];
    assert r.history[..|r.history| - 1] == g.history;
  }

  /** A verbose move object passed back to `game.move`. */
  function AsRequest(m: Ply): Request
  {
    Request(m.from, m.to, m.promotion)
  }

  /** Playing back a move from the legal-move list always applies exactly one legal move. */
  lemma LegalMoveApplies(g: Game, m: Ply)
    requires m in Moves(g)
    ensures Move(g, AsRequest(m)) != g
    ensures |Move(g, AsRequest(m)).history| == |g.history| + 1
    ensures Turn(Move(g, AsRequest(m))) == Opponent(Turn(g))
  {
    assert Matches(m, AsRequest(m));
    MoveFlipsTurn(g, AsRequest(m));
  }

  /**
   * The selection gate the screens give the board: the game is neither
   * checkmate nor drawn, it is `side`'s turn, and the piece is `side`'s.
   * An absent `side` (the puzzle screen before a puzzle is loaded) admits nothing.
   */
  predicate MaySelect(g: Game, side: Option<Color>, piece: Cell)
  {
    !InCheckmate(g) && !InDraw(g) && side == Some(Turn(g)) && piece.Some? && side == Some(piece.value.color)
  }
}
