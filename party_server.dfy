/**
 * The PartyKit room coordinator of party/index.ts: the matchmaking queue,
 * the game rooms, the player-to-room map and the open connections of class
 * TetrisServer, and every message handler and timer callback that changes
 * them.
 *
 * Messages the server sends are appended to `outbox`, in order. Each
 * setTimeout callback is recorded in `timers` with the values it captured;
 * FireTimer runs any pending one. The clock, the random room id and the
 * random nickname number are parameters.
 */
module PartyServer {
  import opened Wrappers
  import opened Lobby

  type ConnId = ClientId

  datatype RematchRequest = RematchRequest(playerId: ConnId, timestamp: int)

  datatype GameRoom = GameRoom(
    players: seq<ConnId>,
    nicknames: seq<string>,
    createdAt: int,
    startTime: Option<int>,
    gameOverPlayers: set<ConnId>,
    rematchRequested: Option<RematchRequest>)

  /** The messages the server sends. */
  datatype Message =
    | OnlineCount(count: int)
    | QueueJoined(position: int)
    | QueueUpdate(position: int)
    | QueueTimeout
    | Error(text: string)
    | MatchFound(opponent: string, roomId: RoomId)
    | GameStart(roomId: RoomId, opponent: string, startTime: int)
    | OpponentUpdate(snapshot: Snapshot)
    | OpponentDisconnected
    | GameEnd(winner: string, reason: string, roomId: RoomId)
    | GameOverNotice(winner: string, reason: string)
    | RematchRequestNotice(playerId: ConnId, playerNickname: string, roomId: RoomId)
    | RematchStart(roomId: RoomId, opponent: string, startTime: int)
    | RematchRejected(roomId: RoomId)

  datatype Envelope = Envelope(to: ConnId, msg: Message)

  /** A pending setTimeout callback and the values it captured. */
  datatype Timer =
    | QueueExpiry(conn: ConnId)
    | Countdown(roomId: RoomId, player1: ConnId, player2: ConnId, nickname1: string, nickname2: string,
                notify1: bool, notify2: bool)
    | DisconnectGrace(roomId: RoomId, leaver: ConnId, opponentIndex: int, opponent: ConnId)
    | RematchExpiry(roomId: RoomId, requester: ConnId)
    | RoomCleanup(roomId: RoomId, players: seq<ConnId>)

  const TIME_LIMIT_TEXT: string := "Limit czasu"

  // ---------------------------------------------------------------------------
  // Pure helpers
  // ---------------------------------------------------------------------------

  predicate WellFormedRoom(g: GameRoom) {
    |g.players| == 2 && g.players[0] != g.players[1] && |g.nicknames| == 2
  }

  /** The reason text of game_end: the time-limit text, or "<loser> przegrał". */
  function EndReason(reason: Option<string>, loserNickname: string): (text: string)
    ensures reason == Some("time_limit") ==> text == TIME_LIMIT_TEXT
    ensures reason != Some("time_limit") ==> text == loserNickname + " przegrał"
  {
    if reason == Some("time_limit") then TIME_LIMIT_TEXT else loserNickname + " przegrał"
  }

  /** One message to `to` if it has an open connection, none otherwise. */
  function ToConnected(to: ConnId, conns: seq<ConnId>, msg: Message): seq<Envelope> {
    if to in conns then [Envelope(to, msg)] else []
  }

  /** updateQueuePositions: each queued, connected player is told its 1-based place. */
  function PositionUpdates(q: seq<QueueEntry>, conns: seq<ConnId>): seq<Envelope> {
    if q == [] then []
    else PositionUpdates(q[..|q| - 1], conns) + ToConnected(q[|q| - 1].id, conns, QueueUpdate(|q|))
  }

  /** With every queued player connected, the updates number the queue 1..n in queue order. */
  lemma {:induction false} PositionsNumbered(q: seq<QueueEntry>, conns: seq<ConnId>)
    requires forall i :: 0 <= i < |q| ==> q[i].id in conns
    ensures PositionUpdates(q, conns) == seq(|q|, i requires 0 <= i < |q| => Envelope(q[i].id, QueueUpdate(i + 1)))
  {
    if q != [] {
      var front := q[..|q| - 1];
      PositionsNumbered(front, conns);
      var expected := seq(|q|, i requires 0 <= i < |q| => Envelope(q[i].id, QueueUpdate(i + 1)));
      assert expected == expected[..|q| - 1] + [expected[|q| - 1]];
      assert expected[..|q| - 1] == seq(|front|, i requires 0 <= i < |front| => Envelope(front[i].id, QueueUpdate(i + 1)));
    }
  }

  /** One message per connection, in connection order. */
  function Broadcast(conns: seq<ConnId>, msg: Message): (out: seq<Envelope>)
    ensures |out| == |conns| && forall i :: 0 <= i < |conns| ==> out[i] == Envelope(conns[i], msg)
  {
    seq(|conns|, i requires 0 <= i < |conns| => Envelope(conns[i], msg))
  }

  /** players.forEach: message i to player i, for each connected player. */
  function PerPlayer(players: seq<ConnId>, conns: seq<ConnId>, msgs: seq<Message>): seq<Envelope>
    requires |msgs| == |players|
  {
    if players == [] then []
    else PerPlayer(players[..|players| - 1], conns, msgs[..|msgs| - 1]) +
         ToConnected(players[|players| - 1], conns, msgs[|msgs| - 1])
  }

  /**
   * What onClose tells the opponent of a connection seated in a live room:
   * opponent_disconnected, if the opponent is connected.
   */
  function OpponentNotice(pr: map<ConnId, RoomId>, games: map<RoomId, GameRoom>, conns: seq<ConnId>, conn: ConnId): seq<Envelope> {
    if conn in pr && pr[conn] in games && |games[pr[conn]].players| == 2 then
      var players := games[pr[conn]].players;
      ToConnected(players[OpponentIndex(players, conn)], conns, OpponentDisconnected)
    else []
  }

  /** The two match_found messages of a new room. */
  function MatchNotices(p1: QueueEntry, p2: QueueEntry, roomId: RoomId, conns: seq<ConnId>): seq<Envelope> {
    ToConnected(p1.id, conns, MatchFound(p2.nickname, roomId)) + ToConnected(p2.id, conns, MatchFound(p1.nickname, roomId))
  }

  /** A fresh room for the two oldest queued players, nicknames aligned with seats. */
  function NewRoom(p1: QueueEntry, p2: QueueEntry, now: int): GameRoom {
    GameRoom([p1.id, p2.id], [p1.nickname, p2.nickname], now, None, {}, None)
  }

  // ---------------------------------------------------------------------------
  // The server's invariant, on values
  // ---------------------------------------------------------------------------

  /**
   * A forfeit timer captured a seat index; a room-cleanup timer names a room
   * id that was handed out, with that room's players while it lives.
   */
  ghost predicate TimerOk(t: Timer, games: map<RoomId, GameRoom>, used: set<RoomId>) {
    (t.DisconnectGrace? ==> 0 <= t.opponentIndex < 2) &&
    (t.RoomCleanup? ==> t.roomId in used && (t.roomId in games ==> games[t.roomId].players == t.players))
  }

  ghost predicate TimersOk(ts: seq<Timer>, games: map<RoomId, GameRoom>, used: set<RoomId>) {
    forall k :: 0 <= k < |ts| ==> TimerOk(ts[k], games, used)
  }

  /** Every room has two distinct seats and two nicknames, and a non-empty id that was handed out. */
  ghost predicate RoomsOk(games: map<RoomId, GameRoom>, used: set<RoomId>) {
    forall r :: r in games ==> WellFormedRoom(games[r]) && r in used && r != ""
  }

  /** A player mapped to a room is connected and seated in that live room. */
  ghost predicate MappingOk(pr: map<ConnId, RoomId>, games: map<RoomId, GameRoom>, conns: seq<ConnId>) {
    forall p :: p in pr ==> p in conns && pr[p] in games && p in games[pr[p]].players
  }

  /** The same rooms with the same seats and nicknames. */
  ghost predicate SameSeats(g: map<RoomId, GameRoom>, g2: map<RoomId, GameRoom>) {
    g.Keys == g2.Keys && forall r :: r in g ==> g2[r].players == g[r].players && g2[r].nicknames == g[r].nicknames
  }

  lemma TimersAppend(ts: seq<Timer>, t: Timer, g: map<RoomId, GameRoom>, u: set<RoomId>)
    requires TimersOk(ts, g, u) && TimerOk(t, g, u)
    ensures TimersOk(ts + [t], g, u)
  {
    assert forall k :: 0 <= k < |ts| ==> (ts + [t])[k] == ts[k];
  }

  lemma TimersRemove(ts: seq<Timer>, k: int, g: map<RoomId, GameRoom>, u: set<RoomId>)
    requires TimersOk(ts, g, u) && 0 <= k < |ts|
    ensures TimerOk(ts[k], g, u) && TimersOk(ts[..k] + ts[k + 1..], g, u)
  {
    var r := ts[..k] + ts[k + 1..];
    forall j | 0 <= j < |r|
      ensures TimerOk(r[j], g, u)
    {
      if j < k {
        assert r[j] == ts[j];
      } else {
        assert r[j] == ts[j + 1];
      }
    }
  }

  /** Changing a room's start time, over-marks or rematch request keeps the invariant. */
  lemma SeatsKept(g: map<RoomId, GameRoom>, g2: map<RoomId, GameRoom>, pr: map<ConnId, RoomId>, conns: seq<ConnId>,
                  ts: seq<Timer>, u: set<RoomId>)
    requires RoomsOk(g, u) && MappingOk(pr, g, conns) && TimersOk(ts, g, u) && SameSeats(g, g2)
    ensures RoomsOk(g2, u) && MappingOk(pr, g2, conns) && TimersOk(ts, g2, u)
  {
    forall k | 0 <= k < |ts|
      ensures TimerOk(ts[k], g2, u)
    {
      assert TimerOk(ts[k], g, u);
    }
  }

  lemma SeatsUpdated(g: map<RoomId, GameRoom>, r: RoomId, room: GameRoom)
    requires r in g && room.players == g[r].players && room.nicknames == g[r].nicknames
    ensures SameSeats(g, g[r := room])
  {
  }

  /** Opening a room with a fresh id for two connected players, and mapping both to it, keeps the invariant. */
  lemma RoomAdded(g: map<RoomId, GameRoom>, pr: map<ConnId, RoomId>, conns: seq<ConnId>, ts: seq<Timer>, u: set<RoomId>,
                  r: RoomId, room: GameRoom)
    requires RoomsOk(g, u) && MappingOk(pr, g, conns) && TimersOk(ts, g, u)
    requires r !in u && r != "" && WellFormedRoom(room) && room.players[0] in conns && room.players[1] in conns
    ensures RoomsOk(g[r := room], u + {r})
    ensures MappingOk(pr[room.players[0] := r][room.players[1] := r], g[r := room], conns)
    ensures TimersOk(ts, g[r := room], u + {r})
  {
    forall k | 0 <= k < |ts|
      ensures TimerOk(ts[k], g[r := room], u + {r})
    {
      assert TimerOk(ts[k], g, u);
    }
  }

  /** Deleting a room together with the mappings of its players keeps the invariant. */
  lemma RoomRemoved(g: map<RoomId, GameRoom>, pr: map<ConnId, RoomId>, conns: seq<ConnId>, ts: seq<Timer>, u: set<RoomId>,
                    r: RoomId, ps: seq<ConnId>)
    requires RoomsOk(g, u) && MappingOk(pr, g, conns) && TimersOk(ts, g, u)
    requires r in g ==> g[r].players == ps
    ensures RoomsOk(g - {r}, u)
    ensures MappingOk(pr - (set p | p in ps), g - {r}, conns)
    ensures TimersOk(ts, g - {r}, u)
  {
    forall k | 0 <= k < |ts|
      ensures TimerOk(ts[k], g - {r}, u)
    {
      assert TimerOk(ts[k], g, u);
    }
  }

  /** Closing connection c drops its room mapping, which keeps the mapping invariant. */
  lemma MappingClosed(pr: map<ConnId, RoomId>, g: map<RoomId, GameRoom>, conns: seq<ConnId>, c: ConnId)
    requires MappingOk(pr, g, conns)
    ensures MappingOk(pr - {c}, g, Without(conns, c))
  {
  }

  /** A new connection keeps the invariant. */
  lemma ConnectionOpened(q: seq<QueueEntry>, conns: seq<ConnId>, pr: map<ConnId, RoomId>, g: map<RoomId, GameRoom>, c: ConnId)
    requires Distinct(conns) && QueueOk(q, conns, pr, 1) && MappingOk(pr, g, conns) && c !in conns
    ensures Distinct(conns + [c]) && QueueOk(q, conns + [c], pr, 1) && MappingOk(pr, g, conns + [c])
  {
  }


  // ---------------------------------------------------------------------------
  // The server
  // ---------------------------------------------------------------------------

  class TetrisServer {
    var queue: seq<QueueEntry>
    var games: map<RoomId, GameRoom>
    var playerRooms: map<ConnId, RoomId>
    var connections: seq<ConnId>
    var outbox: seq<Envelope>
    var timers: seq<Timer>
    /** Every room id ever handed out; new ones are fresh. */
    ghost var usedRoomIds: set<RoomId>

    ghost predicate Valid()
      reads this`queue, this`games, this`playerRooms, this`connections, this`timers, this`usedRoomIds
    {
      Distinct(connections) && QueueOk(queue, connections, playerRooms, 1) && RoomsOk(games, usedRoomIds) &&
      MappingOk(playerRooms, games, connections) && TimersOk(timers, games, usedRoomIds)
    }

    /** Only the outbox may have changed. */
    twostate predicate OnlySent()
      reads this
    {
      queue == old(queue) && games == old(games) && playerRooms == old(playerRooms) &&
      connections == old(connections) && timers == old(timers) && usedRoomIds == old(usedRoomIds)
    }

    constructor()
      ensures Valid()
      ensures queue == [] && games == map[] && playerRooms == map[] && connections == [] && outbox == [] && timers == []
    {
      queue := [];
      games := map[];
      playerRooms := map[];
      connections := [];
      outbox := [];
      timers := [];
      usedRoomIds := {};
    }

    // -------------------------------------------------------------------------
    // Loops that send
    // -------------------------------------------------------------------------

    /** updateQueuePositions. */
    method UpdateQueuePositions()
      modifies this
      ensures OnlySent() && outbox == old(outbox) + PositionUpdates(queue, connections)
    {
      var position := 1;
      var i := 0;
      while i < |queue|
        invariant 0 <= i <= |queue| && position == i + 1
        invariant OnlySent() && outbox == old(outbox) + PositionUpdates(queue[..i], connections)
      {
        assert queue[..i + 1][..i] == queue[..i];
        var id := queue[i].id;
        if id in connections {
          outbox := outbox + [Envelope(id, QueueUpdate(position))];
        }
        position := position + 1;
        i := i + 1;
      }
      assert queue[..i] == queue;
    }

    /** broadcastOnlineCount: every connection is told the number of connections. */
    method BroadcastOnlineCount()
      modifies this
      ensures OnlySent() && outbox == old(outbox) + Broadcast(connections, OnlineCount(|connections|))
    {
      var onlineCount := |connections|;
      var i := 0;
      while i < |connections|
        invariant 0 <= i <= |connections|
        invariant OnlySent() && outbox == old(outbox) + Broadcast(connections[..i], OnlineCount(onlineCount))
      {
        outbox := outbox + [Envelope(connections[i], OnlineCount(onlineCount))];
        i := i + 1;
        assert Broadcast(connections[..i], OnlineCount(onlineCount)) ==
          Broadcast(connections[..i - 1], OnlineCount(onlineCount)) + [Envelope(connections[i - 1], OnlineCount(onlineCount))];
      }
      assert connections[..i] == connections;
    }

    /** players.forEach with a send to each connected player. */
    method SendPerPlayer(players: seq<ConnId>, msgs: seq<Message>)
      requires |msgs| == |players|
      modifies this
      ensures OnlySent() && outbox == old(outbox) + PerPlayer(players, connections, msgs)
    {
      var i := 0;
      while i < |players|
        invariant 0 <= i <= |players|
        invariant OnlySent() && outbox == old(outbox) + PerPlayer(players[..i], connections, msgs[..i])
      {
        assert players[..i + 1][..i] == players[..i] && msgs[..i + 1][..i] == msgs[..i];
        if players[i] in connections {
          outbox := outbox + [Envelope(players[i], msgs[i])];
        }
        i := i + 1;
      }
      assert players[..i] == players && msgs[..i] == msgs;
    }

    // -------------------------------------------------------------------------
    // Connections
    // -------------------------------------------------------------------------

    /** onConnect: registers the connection, tells it the count, then tells everyone. */
    method OnConnect(conn: ConnId)
      requires Valid()
      modifies this
      ensures Valid()
      ensures connections == if conn in old(connections) then old(connections) else old(connections) + [conn]
      ensures queue == old(queue) && games == old(games) && playerRooms == old(playerRooms) && timers == old(timers)
      ensures outbox == old(outbox) + [Envelope(conn, OnlineCount(|connections|))] + Broadcast(connections, OnlineCount(|connections|))
    {
      if conn !in connections {
        ConnectionOpened(queue, connections, playerRooms, games, conn);
        connections := connections + [conn];
      }
      outbox := outbox + [Envelope(conn, OnlineCount(|connections|))];
      BroadcastOnlineCount();
    }

    /**
     * The room part of onClose: if the connection's room lives and the
     * opponent is connected, the opponent is warned and the 60-second forfeit
     * timer is armed; the connection's own mapping is dropped.
     */
    method WarnOpponent(conn: ConnId)
      requires Valid()
      modifies this
      ensures Valid()
      ensures queue == old(queue) && games == old(games) && connections == old(connections)
      ensures playerRooms == old(playerRooms) - {conn}
      ensures conn !in old(playerRooms) ==> timers == old(timers)
      ensures conn in old(playerRooms) ==>
        var r := old(playerRooms)[conn];
        var i := OpponentIndex(old(games)[r].players, conn);
        var opponent := old(games)[r].players[i];
        timers == old(timers) + (if opponent in connections then [DisconnectGrace(r, conn, i, opponent)] else [])
      ensures outbox == old(outbox) + OpponentNotice(old(playerRooms), games, connections, conn)
    {
      if conn in playerRooms && playerRooms[conn] != "" {
        var roomId := playerRooms[conn];
        if roomId in games {
          var game := games[roomId];
          var opponentIndex := OpponentIndex(game.players, conn);
          var opponentId := game.players[opponentIndex];
          if opponentId in connections {
            outbox := outbox + [Envelope(opponentId, OpponentDisconnected)];
            TimersAppend(timers, DisconnectGrace(roomId, conn, opponentIndex, opponentId), games, usedRoomIds);
            timers := timers + [DisconnectGrace(roomId, conn, opponentIndex, opponentId)];
          }
        }
        playerRooms := playerRooms - {conn};
      }
    }

    /**
     * onClose: leaves the queue, warns the opponent and arms the 60-second
     * forfeit timer, drops its own room mapping and the connection, and tells
     * everyone the new count.
     */
    method OnClose(conn: ConnId)
      requires Valid() && conn in connections
      modifies this
      ensures Valid()
      ensures queue == WithoutEntry(old(queue), conn)
      ensures playerRooms == old(playerRooms) - {conn}
      ensures connections == Without(old(connections), conn)
      ensures games == old(games)
      ensures conn !in QueueIds(queue) && conn !in playerRooms && conn !in connections
      ensures conn !in old(playerRooms) ==> timers == old(timers)
      ensures conn in old(playerRooms) ==>
        var r := old(playerRooms)[conn];
        var i := OpponentIndex(old(games)[r].players, conn);
        var opponent := old(games)[r].players[i];
        timers == old(timers) + (if opponent in old(connections) then [DisconnectGrace(r, conn, i, opponent)] else [])
      ensures outbox == old(outbox) +
        (if conn in QueueIds(old(queue)) then PositionUpdates(queue, old(connections)) else []) +
        OpponentNotice(old(playerRooms), old(games), old(connections), conn) +
        Broadcast(connections, OnlineCount(|connections|))
    {
      WithoutEntryLength(queue, conn);
      ghost var sent0 := outbox;
      HandleCancelQueue(conn);
      ghost var sent1 := outbox;
      assert sent1 == sent0 + (if conn in QueueIds(old(queue)) then PositionUpdates(queue, old(connections)) else []);
      WarnOpponent(conn);
      assert outbox == sent1 + OpponentNotice(old(playerRooms), old(games), old(connections), conn);
      WithoutEntryLength(queue, conn);
      QueueClosed(queue, connections, playerRooms, conn);
      MappingClosed(playerRooms, games, connections, conn);
      assert playerRooms - {conn} == playerRooms;
      connections := Without(connections, conn);
      BroadcastOnlineCount();
    }

    // -------------------------------------------------------------------------
    // Queue
    // -------------------------------------------------------------------------

    /** The state changes of tryMatchmaking for two queued players, before anything is sent. */
    method OpenRoom(roomId: RoomId, now: int)
      requires Distinct(connections) && QueueOk(queue, connections, playerRooms, 2) && RoomsOk(games, usedRoomIds)
      requires MappingOk(playerRooms, games, connections) && TimersOk(timers, games, usedRoomIds)
      requires roomId !in usedRoomIds && roomId != "" && |queue| >= 2
      modifies this
      ensures Valid()
      ensures connections == old(connections) && outbox == old(outbox) && timers == old(timers)
      ensures roomId in games && roomId in usedRoomIds
      ensures var p1, p2 := old(queue)[0], old(queue)[1];
        queue == [] &&
        games == old(games)[roomId := NewRoom(p1, p2, now)] &&
        playerRooms == old(playerRooms)[p1.id := roomId][p2.id := roomId]
    {
      var player1 := queue[0];
      var player2 := queue[1];
      QueueOpened(queue, connections, playerRooms);
      var room := NewRoom(player1, player2, now);
      RoomAdded(games, playerRooms, connections, timers, usedRoomIds, roomId, room);
      queue := queue[2..];
      games := games[roomId := room];
      usedRoomIds := usedRoomIds + {roomId};
      playerRooms := playerRooms[player1.id := roomId][player2.id := roomId];
    }

    /**
     * tryMatchmaking: with two queued players, the two oldest leave the queue
     * for a new room with the given id, are mapped to it, are told their
     * opponent, and the 3-second countdown starts.
     */
    method TryMatchmaking(roomId: RoomId, now: int)
      requires Distinct(connections) && QueueOk(queue, connections, playerRooms, 2) && RoomsOk(games, usedRoomIds)
      requires MappingOk(playerRooms, games, connections) && TimersOk(timers, games, usedRoomIds)
      requires roomId !in usedRoomIds && roomId != ""
      modifies this
      ensures Valid()
      ensures connections == old(connections)
      ensures |old(queue)| < 2 ==> (queue == old(queue) && games == old(games) && playerRooms == old(playerRooms) &&
                                    outbox == old(outbox) && timers == old(timers))
      ensures |old(queue)| >= 2 ==>
        var p1, p2 := old(queue)[0], old(queue)[1];
        queue == [] &&
        games == old(games)[roomId := NewRoom(p1, p2, now)] &&
        playerRooms == old(playerRooms)[p1.id := roomId][p2.id := roomId] &&
        outbox == old(outbox) + MatchNotices(p1, p2, roomId, connections) &&
        timers == old(timers) + [Countdown(roomId, p1.id, p2.id, p1.nickname, p2.nickname, p1.id in connections, p2.id in connections)]
    {
      if |queue| < 2 {
        return;
      }
      var player1 := queue[0];
      var player2 := queue[1];
      OpenRoom(roomId, now);
      var notify1 := player1.id in connections;
      var notify2 := player2.id in connections;
      outbox := outbox + MatchNotices(player1, player2, roomId, connections);
      var countdown := Countdown(roomId, player1.id, player2.id, player1.nickname, player2.nickname, notify1, notify2);
      TimersAppend(timers, countdown, games, usedRoomIds);
      timers := timers + [countdown];
    }

    /** The queue_joined notice and renumbering of handleFindGame, for a connection free to join. */
    method Enqueue(entry: QueueEntry)
      requires Valid() && entry.id in connections && entry.id !in QueueIds(queue) && entry.id !in playerRooms
      modifies this
      ensures Distinct(connections) && QueueOk(queue, connections, playerRooms, 2) && RoomsOk(games, usedRoomIds)
      ensures MappingOk(playerRooms, games, connections) && TimersOk(timers, games, usedRoomIds)
      ensures queue == old(queue) + [entry] && games == old(games) && playerRooms == old(playerRooms)
      ensures connections == old(connections) && timers == old(timers) && usedRoomIds == old(usedRoomIds)
      ensures outbox == old(outbox) + [Envelope(entry.id, QueueJoined(|queue|))] + PositionUpdates(queue, connections)
    {
      QueueJoinKept(queue, connections, playerRooms, entry);
      queue := queue + [entry];
      outbox := outbox + [Envelope(entry.id, QueueJoined(|queue|))];
      UpdateQueuePositions();
    }

    /**
     * handleFindGame: a connection already queued or already in a room gets
     * one error and nothing changes; otherwise it joins the queue, is told its
     * place, everyone queued is renumbered, matchmaking runs, and the
     * 2-minute queue timer starts.
     */
    method HandleFindGame(conn: ConnId, nickname: Option<string>, n: nat, now: int, roomId: RoomId)
      requires Valid() && conn in connections
      requires n < 10000 && roomId !in usedRoomIds && roomId != ""
      modifies this
      ensures Valid()
      ensures conn in QueueIds(old(queue)) ==>
        outbox == old(outbox) + [Envelope(conn, Error(ALREADY_QUEUED))] && OnlySent()
      ensures conn !in QueueIds(old(queue)) && conn in old(playerRooms) ==>
        outbox == old(outbox) + [Envelope(conn, Error(ALREADY_IN_GAME))] && OnlySent()
      ensures conn !in QueueIds(old(queue)) && conn !in old(playerRooms) ==>
        var q := old(queue) + [QueueEntry(conn, QueueNickname(nickname, n), now)];
        connections == old(connections) &&
        (|q| < 2 ==>
          queue == q && games == old(games) && playerRooms == old(playerRooms) &&
          outbox == old(outbox) + [Envelope(conn, QueueJoined(|q|))] + PositionUpdates(q, connections) &&
          timers == old(timers) + [QueueExpiry(conn)]) &&
        (|q| >= 2 ==>
          queue == [] && games == old(games)[roomId := NewRoom(q[0], q[1], now)] &&
          playerRooms == old(playerRooms)[q[0].id := roomId][q[1].id := roomId] &&
          outbox == old(outbox) + [Envelope(conn, QueueJoined(|q|))] + PositionUpdates(q, connections) +
            MatchNotices(q[0], q[1], roomId, connections) &&
          timers == old(timers) + [Countdown(roomId, q[0].id, q[1].id, q[0].nickname, q[1].nickname, true, true),
                                   QueueExpiry(conn)])
    {
      if conn in QueueIds(queue) {
        outbox := outbox + [Envelope(conn, Error(ALREADY_QUEUED))];
        return;
      }
      if conn in playerRooms {
        outbox := outbox + [Envelope(conn, Error(ALREADY_IN_GAME))];
        return;
      }
      Join(QueueEntry(conn, QueueNickname(nickname, n), now), roomId, now);
    }

    /** The part of handleFindGame after its checks: queueing, matchmaking and the queue timer. */
    method Join(entry: QueueEntry, roomId: RoomId, now: int)
      requires Valid() && entry.id in connections && entry.id !in QueueIds(queue) && entry.id !in playerRooms
      requires roomId !in usedRoomIds && roomId != ""
      modifies this
      ensures Valid()
      ensures var q := old(queue) + [entry];
        connections == old(connections) &&
        (|q| < 2 ==>
          queue == q && games == old(games) && playerRooms == old(playerRooms) &&
          outbox == old(outbox) + [Envelope(entry.id, QueueJoined(|q|))] + PositionUpdates(q, connections) &&
          timers == old(timers) + [QueueExpiry(entry.id)]) &&
        (|q| >= 2 ==>
          queue == [] && games == old(games)[roomId := NewRoom(q[0], q[1], now)] &&
          playerRooms == old(playerRooms)[q[0].id := roomId][q[1].id := roomId] &&
          outbox == old(outbox) + [Envelope(entry.id, QueueJoined(|q|))] + PositionUpdates(q, connections) +
            MatchNotices(q[0], q[1], roomId, connections) &&
          timers == old(timers) + [Countdown(roomId, q[0].id, q[1].id, q[0].nickname, q[1].nickname, true, true),
                                   QueueExpiry(entry.id)])
    {
      Enqueue(entry);
      TryMatchmaking(roomId, now);
      StartQueueTimer(entry.id);
    }

    /** The 2-minute queue timer of handleFindGame starts. */
    method StartQueueTimer(conn: ConnId)
      requires Valid()
      modifies this
      ensures Valid()
      ensures queue == old(queue) && games == old(games) && playerRooms == old(playerRooms)
      ensures connections == old(connections) && outbox == old(outbox)
      ensures timers == old(timers) + [QueueExpiry(conn)]
    {
      TimersAppend(timers, QueueExpiry(conn), games, usedRoomIds);
      timers := timers + [QueueExpiry(conn)];
    }

    /** handleCancelQueue: leaves the queue if queued, and the rest are renumbered; otherwise nothing. */
    method HandleCancelQueue(conn: ConnId)
      requires Valid()
      modifies this
      ensures Valid()
      ensures conn !in QueueIds(old(queue)) ==> OnlySent() && outbox == old(outbox)
      ensures conn in QueueIds(old(queue)) ==>
        queue == WithoutEntry(old(queue), conn) && |queue| == |old(queue)| - 1 &&
        games == old(games) && playerRooms == old(playerRooms) && connections == old(connections) && timers == old(timers) &&
        outbox == old(outbox) + PositionUpdates(queue, connections)
    {
      WithoutEntryLength(queue, conn);
      QueueLeft(queue, connections, playerRooms, conn);
      if conn in QueueIds(queue) {
        queue := WithoutEntry(queue, conn);
        UpdateQueuePositions();
      }
    }

    /** The 2-minute queue timer: a player still queued is dropped, told so, and the rest renumbered. */
    method QueueTimerExpired(conn: ConnId)
      requires Valid()
      modifies this
      ensures Valid()
      ensures conn !in QueueIds(old(queue)) ==> OnlySent() && outbox == old(outbox)
      ensures conn in QueueIds(old(queue)) ==>
        queue == WithoutEntry(old(queue), conn) && |queue| == |old(queue)| - 1 &&
        games == old(games) && playerRooms == old(playerRooms) && connections == old(connections) && timers == old(timers) &&
        outbox == old(outbox) + [Envelope(conn, QueueTimeout)] + PositionUpdates(queue, connections)
    {
      WithoutEntryLength(queue, conn);
      QueueLeft(queue, connections, playerRooms, conn);
      if conn in QueueIds(queue) {
        queue := WithoutEntry(queue, conn);
        outbox := outbox + [Envelope(conn, QueueTimeout)];
        UpdateQueuePositions();
      }
    }

    /** The 3-second countdown: stamps the start time if the room lives, and tells the players captured at match time. */
    method CountdownFinished(t: Timer, now: int)
      requires Valid() && t.Countdown?
      modifies this
      ensures Valid()
      ensures queue == old(queue) && playerRooms == old(playerRooms) && connections == old(connections) && timers == old(timers)
      ensures t.roomId in old(games) ==> games == old(games)[t.roomId := old(games)[t.roomId].(startTime := Some(now))]
      ensures t.roomId !in old(games) ==> games == old(games)
      ensures outbox == old(outbox) +
        (if t.notify1 then [Envelope(t.player1, GameStart(t.roomId, t.nickname2, now))] else []) +
        (if t.notify2 then [Envelope(t.player2, GameStart(t.roomId, t.nickname1, now))] else [])
    {
      if t.roomId in games {
        var g2 := games[t.roomId := games[t.roomId].(startTime := Some(now))];
        SeatsUpdated(games, t.roomId, g2[t.roomId]);
        SeatsKept(games, g2, playerRooms, connections, timers, usedRoomIds);
        games := g2;
      }
      if t.notify1 {
        outbox := outbox + [Envelope(t.player1, GameStart(t.roomId, t.nickname2, now))];
      }
      if t.notify2 {
        outbox := outbox + [Envelope(t.player2, GameStart(t.roomId, t.nickname1, now))];
      }
    }

    // -------------------------------------------------------------------------
    // In game
    // -------------------------------------------------------------------------

    /** handleGameUpdate: relays the sender's board and counters to the other seat of its room. */
    method HandleGameUpdate(conn: ConnId, snapshot: Snapshot)
      requires Valid()
      modifies this
      ensures OnlySent() && Valid()
      ensures outbox == old(outbox) +
        if conn in playerRooms && playerRooms[conn] != "" && playerRooms[conn] in games then
          var players := games[playerRooms[conn]].players;
          ToConnected(players[OpponentIndex(players, conn)], connections, OpponentUpdate(snapshot))
        else []
    {
      if conn !in playerRooms || playerRooms[conn] == "" {
        return;
      }
      var roomId := playerRooms[conn];
      if roomId !in games {
        return;
      }
      var game := games[roomId];
      var opponentIndex := OpponentIndex(game.players, conn);
      var opponentId := game.players[opponentIndex];
      if opponentId in connections {
        outbox := outbox + [Envelope(opponentId, OpponentUpdate(snapshot))];
      }
    }

    /**
     * handleGameOver: for a seated sender, marks it over and sends game_end,
     * naming the nickname of the other seat as winner, to the opponent and
     * then to the sender; every report sends again. Unknown rooms and
     * strangers are ignored.
     */
    method HandleGameOver(conn: ConnId, roomId: RoomId, reason: Option<string>)
      requires Valid()
      modifies this
      ensures Valid()
      ensures queue == old(queue) && playerRooms == old(playerRooms) && connections == old(connections) && timers == old(timers)
      ensures (roomId !in old(games) || conn !in old(games)[roomId].players) ==> games == old(games) && outbox == old(outbox)
      ensures roomId in old(games) && conn in old(games)[roomId].players ==>
        var g := old(games)[roomId];
        var me := IndexOf(g.players, conn);
        var other := if me == 0 then 1 else 0;
        var end := GameEnd(g.nicknames[other], EndReason(reason, g.nicknames[me]), roomId);
        games == old(games)[roomId := g.(gameOverPlayers := g.gameOverPlayers + {conn})] &&
        outbox == old(outbox) + ToConnected(g.players[other], connections, end) + ToConnected(conn, connections, end)
    {
      if roomId !in games {
        return;
      }
      var game := games[roomId];
      var playerIndex := IndexOf(game.players, conn);
      if playerIndex == -1 {
        return;
      }
      var g2 := games[roomId := game.(gameOverPlayers := game.gameOverPlayers + {conn})];
      SeatsUpdated(games, roomId, g2[roomId]);
      SeatsKept(games, g2, playerRooms, connections, timers, usedRoomIds);
      games := g2;
      var opponentIndex := if playerIndex == 0 then 1 else 0;
      var opponentId := game.players[opponentIndex];
      var playerNickname := game.nicknames[playerIndex];
      var opponentNickname := game.nicknames[opponentIndex];
      var end := GameEnd(opponentNickname, EndReason(reason, playerNickname), roomId);
      outbox := outbox + ToConnected(opponentId, connections, end) + ToConnected(conn, connections, end);
    }

    /**
     * handleLeaveGame: for a live room, drops the sender's own mapping (the
     * room stays) and tells the occupant of the opposite seat, or seat 0 if
     * the sender is not seated there.
     */
    method HandleLeaveGame(conn: ConnId, roomId: RoomId)
      requires Valid()
      modifies this
      ensures Valid()
      ensures queue == old(queue) && games == old(games) && connections == old(connections) && timers == old(timers)
      ensures roomId !in old(games) ==> playerRooms == old(playerRooms) && outbox == old(outbox)
      ensures roomId in old(games) ==>
        var players := old(games)[roomId].players;
        playerRooms == old(playerRooms) - {conn} &&
        outbox == old(outbox) + ToConnected(players[OpponentIndex(players, conn)], connections, OpponentDisconnected)
    {
      if roomId !in games {
        return;
      }
      var game := games[roomId];
      playerRooms := playerRooms - {conn};
      var opponentIndex := OpponentIndex(game.players, conn);
      var opponentId := game.players[opponentIndex];
      if opponentId in connections {
        outbox := outbox + [Envelope(opponentId, OpponentDisconnected)];
      }
    }

    /**
     * The 60-second forfeit timer: only if the room still exists and still
     * seats the closed connection, the captured opponent is told it won with
     * the nickname of its seat, and the room and all its players' mappings go.
     */
    method DisconnectTimerExpired(t: Timer)
      requires Valid() && t.DisconnectGrace? && 0 <= t.opponentIndex < 2
      modifies this
      ensures Valid()
      ensures queue == old(queue) && connections == old(connections) && timers == old(timers)
      ensures !(t.roomId in old(games) && t.leaver in old(games)[t.roomId].players) ==>
        games == old(games) && playerRooms == old(playerRooms) && outbox == old(outbox)
      ensures t.roomId in old(games) && t.leaver in old(games)[t.roomId].players ==>
        var g := old(games)[t.roomId];
        games == old(games) - {t.roomId} &&
        playerRooms == old(playerRooms) - (set p | p in g.players) &&
        outbox == old(outbox) + [Envelope(t.opponent, GameOverNotice(g.nicknames[t.opponentIndex], OPPONENT_LEFT))]
    {
      if t.roomId in games && t.leaver in games[t.roomId].players {
        var currentGame := games[t.roomId];
        outbox := outbox + [Envelope(t.opponent, GameOverNotice(currentGame.nicknames[t.opponentIndex], OPPONENT_LEFT))];
        RoomRemoved(games, playerRooms, connections, timers, usedRoomIds, t.roomId, currentGame.players);
        games := games - {t.roomId};
        playerRooms := playerRooms - (set p | p in currentGame.players);
      }
    }

    // -------------------------------------------------------------------------
    // Rematch
    // -------------------------------------------------------------------------

    /**
     * handleRematchRequest: a seated player's request is stored (replacing any
     * earlier one), the other seat is told, and the 10-second timer starts.
     */
    method HandleRematchRequest(conn: ConnId, roomId: RoomId, now: int)
      requires Valid()
      modifies this
      ensures Valid()
      ensures queue == old(queue) && playerRooms == old(playerRooms) && connections == old(connections)
      ensures (roomId !in old(games) || conn !in old(games)[roomId].players) ==> OnlySent() && outbox == old(outbox)
      ensures roomId in old(games) && conn in old(games)[roomId].players ==>
        var g := old(games)[roomId];
        var me := IndexOf(g.players, conn);
        var other := if me == 0 then 1 else 0;
        games == old(games)[roomId := g.(rematchRequested := Some(RematchRequest(conn, now)))] &&
        outbox == old(outbox) + ToConnected(g.players[other], connections, RematchRequestNotice(conn, g.nicknames[me], roomId)) &&
        timers == old(timers) + [RematchExpiry(roomId, conn)]
    {
      if roomId !in games {
        return;
      }
      var game := games[roomId];
      var playerIndex := IndexOf(game.players, conn);
      if playerIndex == -1 {
        return;
      }
      var playerNickname := game.nicknames[playerIndex];
      var opponentIndex := if playerIndex == 0 then 1 else 0;
      var opponentId := game.players[opponentIndex];
      var g2 := games[roomId := game.(rematchRequested := Some(RematchRequest(conn, now)))];
      SeatsUpdated(games, roomId, g2[roomId]);
      SeatsKept(games, g2, playerRooms, connections, timers, usedRoomIds);
      games := g2;
      outbox := outbox + ToConnected(opponentId, connections, RematchRequestNotice(conn, playerNickname, roomId));
      TimersAppend(timers, RematchExpiry(roomId, conn), games, usedRoomIds);
      timers := timers + [RematchExpiry(roomId, conn)];
    }

    /**
     * handleRematchAccept: ignored unless the room has a pending request;
     * otherwise the over-marks and the request are cleared, the start time is
     * reset, and each connected player gets rematch_start naming the other seat.
     * Neither the seat nor the requester of the sender is checked.
     */
    method HandleRematchAccept(roomId: RoomId, now: int)
      requires Valid()
      modifies this
      ensures Valid()
      ensures queue == old(queue) && playerRooms == old(playerRooms) && connections == old(connections) && timers == old(timers)
      ensures (roomId !in old(games) || old(games)[roomId].rematchRequested.None?) ==> games == old(games) && outbox == old(outbox)
      ensures roomId in old(games) && old(games)[roomId].rematchRequested.Some? ==>
        var g := old(games)[roomId];
        games == old(games)[roomId := g.(gameOverPlayers := {}, rematchRequested := None, startTime := Some(now))] &&
        outbox == old(outbox) + PerPlayer(g.players, connections,
          [RematchStart(roomId, g.nicknames[1], now), RematchStart(roomId, g.nicknames[0], now)])
    {
      if roomId !in games || games[roomId].rematchRequested.None? {
        return;
      }
      var game := games[roomId];
      var newStartTime := now;
      var g2 := games[roomId := game.(gameOverPlayers := {}, rematchRequested := None, startTime := Some(newStartTime))];
      SeatsUpdated(games, roomId, g2[roomId]);
      SeatsKept(games, g2, playerRooms, connections, timers, usedRoomIds);
      games := g2;
      SendPerPlayer(game.players, [RematchStart(roomId, game.nicknames[1], newStartTime), RematchStart(roomId, game.nicknames[0], newStartTime)]);
    }

    /**
     * handleRematchReject: for a live room, clears the request, tells each
     * connected player, and arms the 2-second cleanup of the room. The
     * sender is not checked.
     */
    method HandleRematchReject(roomId: RoomId)
      requires Valid()
      modifies this
      ensures Valid()
      ensures queue == old(queue) && playerRooms == old(playerRooms) && connections == old(connections)
      ensures roomId !in old(games) ==> OnlySent() && outbox == old(outbox)
      ensures roomId in old(games) ==>
        var g := old(games)[roomId];
        games == old(games)[roomId := g.(rematchRequested := None)] &&
        outbox == old(outbox) + PerPlayer(g.players, connections, [RematchRejected(roomId), RematchRejected(roomId)]) &&
        timers == old(timers) + [RoomCleanup(roomId, g.players)]
    {
      if roomId !in games {
        return;
      }
      var game := games[roomId];
      var g2 := games[roomId := game.(rematchRequested := None)];
      SeatsUpdated(games, roomId, g2[roomId]);
      SeatsKept(games, g2, playerRooms, connections, timers, usedRoomIds);
      games := g2;
      SendPerPlayer(game.players, [RematchRejected(roomId), RematchRejected(roomId)]);
      TimersAppend(timers, RoomCleanup(roomId, game.players), games, usedRoomIds);
      timers := timers + [RoomCleanup(roomId, game.players)];
    }

    /** The 10-second rematch timer: rejects only if the same player's request is still pending. */
    method RematchTimerExpired(t: Timer)
      requires Valid() && t.RematchExpiry?
      modifies this
      ensures Valid()
      ensures queue == old(queue) && playerRooms == old(playerRooms) && connections == old(connections)
      ensures !(t.roomId in old(games) && old(games)[t.roomId].rematchRequested.Some? &&
                old(games)[t.roomId].rematchRequested.value.playerId == t.requester) ==>
        OnlySent() && outbox == old(outbox)
      ensures t.roomId in old(games) && old(games)[t.roomId].rematchRequested.Some? &&
              old(games)[t.roomId].rematchRequested.value.playerId == t.requester ==>
        var g := old(games)[t.roomId];
        games == old(games)[t.roomId := g.(rematchRequested := None)] &&
        outbox == old(outbox) + PerPlayer(g.players, connections, [RematchRejected(t.roomId), RematchRejected(t.roomId)]) &&
        timers == old(timers) + [RoomCleanup(t.roomId, g.players)]
    {
      if t.roomId in games && games[t.roomId].rematchRequested.Some? &&
         games[t.roomId].rematchRequested.value.playerId == t.requester {
        HandleRematchReject(t.roomId);
      }
    }

    /** The 2-second cleanup after a rejection: the room and its players' mappings go. */
    method CleanupTimerExpired(t: Timer)
      requires Valid() && t.RoomCleanup? && TimerOk(t, games, usedRoomIds)
      modifies this
      ensures Valid()
      ensures queue == old(queue) && connections == old(connections) && timers == old(timers) && outbox == old(outbox)
      ensures games == old(games) - {t.roomId}
      ensures playerRooms == old(playerRooms) - (set p | p in t.players)
    {
      RoomRemoved(games, playerRooms, connections, timers, usedRoomIds, t.roomId, t.players);
      games := games - {t.roomId};
      playerRooms := playerRooms - (set p | p in t.players);
    }

    /** The environment runs pending timer k; it leaves the pending list first. */
    method FireTimer(k: int, now: int)
      requires Valid() && 0 <= k < |timers|
      modifies this
      ensures Valid()
    {
      var t := timers[k];
      TimersRemove(timers, k, games, usedRoomIds);
      timers := timers[..k] + timers[k + 1..];
      match t
      case QueueExpiry(conn) => QueueTimerExpired(conn);
      case Countdown(_, _, _, _, _, _, _) => CountdownFinished(t, now);
      case DisconnectGrace(_, _, _, _) => DisconnectTimerExpired(t);
      case RematchExpiry(_, _) => RematchTimerExpired(t);
      case RoomCleanup(_, _) => CleanupTimerExpired(t);
    }
  }
}
