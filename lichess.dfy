/**
 * The real-time protocol as the two network screens use it: inbound
 * server messages as a datatype, the reduction of a message to the UCI
 * string of an opponent move, the split of that string into squares, the
 * socket addresses, and the outbound messages.
 */
module Lichess {
  import opened Wrappers
  import opened Text
  import Chess
  import Uci

  const SocketBaseUrl: string := "wss://socket.lichess.org"

  /** One element of a batch (`t: 'b'`): the status name, when a status is present, and its uci. */
  datatype BatchItem = BatchItem(statusName: Option<string>, uci: string)

  /**
   * A parsed inbound message, by its tag `t`. A missing `uci` is the empty
   * string, which JavaScript treats as absent in the same way.
   */
  datatype Inbound =
    | MoveEvent(ply: int, uci: string)      // t: 'move', d: { ply, uci }
    | Batch(items: seq<BatchItem>)          // t: 'b', d: [ ... ]
    | ReloadEvent(v: Option<int>)           // t: 'reload', v
    | OtherEvent(t: string)                 // any other tag

  /** What the client sends. */
  datatype Outbound =
    | Ping(v: int)                          // { t: 'p', v }
    | MoveOut(from: string, to: string)     // { t: 'move', d: { from, to } }

  /** The heartbeat payload sent every second while the socket is open. */
  const Heartbeat: Outbound := Ping(2)

  predicate IsMate(item: BatchItem)
  {
    item.statusName == Some("mate")
  }

  /**
   * The uci of the opponent move a message carries: an even-ply move event,
   * or a batch whose first element is a mate; an empty uci counts as none.
   */
  function InboundUci(m: Inbound): (r: Option<string>)
    ensures r.Some? ==> r.value != ""
    ensures r.Some? <==>
      (m.MoveEvent? && m.ply % 2 == 0 && m.uci != "") ||
      (m.Batch? && |m.items| > 0 && IsMate(m.items[0]) && m.items[0].uci != "")
    ensures r.Some? && m.MoveEvent? ==> r.value == m.uci
    ensures r.Some? && m.Batch? ==> r.value == m.items[0].uci
  {
    var uci :=
      if m.MoveEvent? && m.ply % 2 == 0 then m.uci
      else if m.Batch? && |m.items| > 0 && IsMate(m.items[0]) then m.items[0].uci
      else "";
    if uci != "" then Some(uci) else None
  }

  /** Odd-ply move events (the echo of the local white player's own moves) are ignored. */
  lemma OddPlyIgnored(ply: int, uci: string)
    requires ply % 2 == 1
    ensures InboundUci(MoveEvent(ply, uci)) == None
  {
  }

  /** Only move events and batches can move the board. */
  lemma OnlyMovesAndBatchesMove(m: Inbound)
    requires m.ReloadEvent? || m.OtherEvent?
    ensures InboundUci(m) == None
  {
  }

  /** A batch moves only through its first element, and only when that is a mate. */
  lemma BatchNeedsLeadingMate(items: seq<BatchItem>)
    requires items == [] || !IsMate(items[0])
    ensures InboundUci(Batch(items)) == None
  {
  }

  /**
   * The board call a message leads to, `movePiece(to, from)` with `from`
   * the uci's characters 0-2 and `to` its characters 2-4: the pair `(to, from)`.
   */
  function BoardMoveOf(m: Inbound): (r: Option<(string, string)>)
    ensures r.Some? <==> InboundUci(m).Some?
    ensures r.Some? ==> r.value == (Uci.ParseMove(InboundUci(m).value).1, Uci.ParseMove(InboundUci(m).value).0)
  {
    match InboundUci(m)
    case None => None
    case Some(uci) =>
      var (from, to) := Uci.ParseMove(uci);
      Some((to, from))
  }

  /** An even-ply move event with a full uci moves the board from its first square to its second. */
  lemma EvenPlyMoves(ply: int, from: string, to: string)
    requires ply % 2 == 0 && |from| == 2 && |to| == 2
    ensures BoardMoveOf(MoveEvent(ply, from + to)) == Some((to, from))
  {
    Uci.ParseMoveRoundTrip(from, to);
  }

  /** The socket address for a server path: `SOCKET_BASE_URL + path + '?sri=' + clientId + '&mobile=1'`. */
  function SocketUrl(path: string, clientId: string): (r: string)
    ensures |r| == |SocketBaseUrl| + |path| + |clientId| + 14
    ensures r[..|SocketBaseUrl|] == SocketBaseUrl
    ensures r[|SocketBaseUrl|..|SocketBaseUrl| + |path|] == path
    ensures r[|SocketBaseUrl| + |path|..|SocketBaseUrl| + |path| + 5] == "?sri="
    ensures r[|SocketBaseUrl| + |path| + 5..|r| - 9] == clientId
    ensures r[|r| - 9..] == "&mobile=1"
  {
    SocketBaseUrl + path + "?sri=" + clientId + "&mobile=1"
  }

  /** For one client, different server paths give different socket addresses. */
  lemma SocketUrlInjective(p1: string, p2: string, clientId: string)
    requires SocketUrl(p1, clientId) == SocketUrl(p2, clientId)
    ensures p1 == p2
  {
    var u := SocketUrl(p1, clientId);
    assert |p1| == |p2|;
    assert p1 == u[|SocketBaseUrl|..|SocketBaseUrl| + |p1|];
  }

  /** The server path of the socket of a friend challenge. */
  function ChallengeSocketPath(challengeId: string): string
  {
    "/challenge/" + challengeId + "/socket/v2"
  }

  /** The socket address of a friend challenge: the common template on the challenge path. */
  function ChallengeSocketUrl(challengeId: string, clientId: string): (r: string)
    ensures r == SocketUrl(ChallengeSocketPath(challengeId), clientId)
  {
    SocketBaseUrl + "/challenge/" + challengeId + "/socket/v2?sri=" + clientId + "&mobile=1"
  }

  /** The reload handshake starts on `{t: 'reload', v: 3}` only, and only if no game was fetched yet. */
  predicate StartsReload(m: Inbound, gameFetched: bool)
  {
    m == ReloadEvent(Some(3)) && !gameFetched
  }

  /** A local move is sent to the server exactly when it hands the turn to black. */
  function MoveToSend(turnAfter: Chess.Color, from: string, to: string): (r: Option<Outbound>)
    ensures r.Some? <==> turnAfter == Chess.Black
    ensures r.Some? ==> r.value == MoveOut(from, to)
  {
    if turnAfter == Chess.Black then Some(MoveOut(from, to)) else None
  }
}
