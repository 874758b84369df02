/**
 * The socket.io matchmaking server of server.js: the module-level maps
 * `queue`, `rooms` and `playerRooms`, the connected sockets and the
 * socket.io rooms ("channels") they joined, every event handler, every
 * setTimeout callback and the periodic stale-room sweep.
 *
 * Each emit is appended to `outbox` with the set of sockets it is addressed
 * to. Each setTimeout callback is recorded in `timers` with the values it
 * captured; FireTimer runs any pending one. The clock, the random room id and
 * the random nickname number are parameters.
 */
module SocketServer {
  import opened Wrappers
  import opened Lobby

  type SocketId = ClientId

  /** A room of `rooms`; its `state` member is never read and is not kept. */
  datatype Room = Room(players: seq<SocketId>, nicknames: seq<string>, createdAt: int)

  /** The events the server emits. */
  datatype Event =
    | QueueJoined(position: int)
    | QueueUpdate(position: int)
    | QueueTimeout
    | Error(text: string)
    | MatchFound(opponent: string, roomId: RoomId)
    | GameStart(roomId: RoomId, opponent: string)
    | OpponentUpdate(snapshot: Snapshot)
    | GameOver(winner: string, reason: string)
    | OpponentDisconnected

  /** One emit and the sockets it reaches. */
  datatype Emission = Emission(to: set<SocketId>, event: Event)

  /** A pending setTimeout callback and the values it captured. */
  datatype Timer =
    | Countdown(roomId: RoomId, socket1: Option<SocketId>, socket2: Option<SocketId>, nickname1: string, nickname2: string)
    | QueueExpiry(socket: SocketId)
    | DisconnectGrace(roomId: RoomId, leaver: SocketId)

  const OPPONENT_ENDED: string := "Przeciwnik zakończył grę"

  /** Rooms older than this many milliseconds are swept. */
  const STALE_AFTER: int := 3600000

  predicate WellFormedRoom(room: Room) {
    |room.players| == 2 && room.players[0] != room.players[1] && |room.nicknames| == 2
  }

  /** updateQueuePositions: each queued, connected socket is told its 1-based place. */
  function PositionUpdates(q: seq<QueueEntry>, sockets: seq<SocketId>): seq<Emission> {
    if q == [] then []
    else
      PositionUpdates(q[..|q| - 1], sockets) +
      (if q[|q| - 1].id in sockets then [Emission({q[|q| - 1].id}, QueueUpdate(|q|))] else [])
  }

  /** With every queued socket connected, the updates number the queue 1..n in queue order. */
  lemma {:induction false} PositionsNumbered(q: seq<QueueEntry>, sockets: seq<SocketId>)
    requires forall i :: 0 <= i < |q| ==> q[i].id in sockets
    ensures PositionUpdates(q, sockets) == seq(|q|, i requires 0 <= i < |q| => Emission({q[i].id}, QueueUpdate(i + 1)))
  {
    if q != [] {
      var front := q[..|q| - 1];
      PositionsNumbered(front, sockets);
      var expected := seq(|q|, i requires 0 <= i < |q| => Emission({q[i].id}, QueueUpdate(i + 1)));
      assert expected == expected[..|q| - 1] + [expected[|q| - 1]];
      assert expected[..|q| - 1] == seq(|front|, i requires 0 <= i < |front| => Emission({front[i].id}, QueueUpdate(i + 1)));
    }
  }

  /** The emits of tryMatchmaking: match_found to each connected player, naming the other. */
  function MatchNotices(p1: QueueEntry, p2: QueueEntry, roomId: RoomId, sockets: seq<SocketId>): seq<Emission> {
    (if p1.id in sockets then [Emission({p1.id}, MatchFound(p2.nickname, roomId))] else []) +
    (if p2.id in sockets then [Emission({p2.id}, MatchFound(p1.nickname, roomId))] else [])
  }

  function NewRoom(p1: QueueEntry, p2: QueueEntry, now: int): Room {
    Room([p1.id, p2.id], [p1.nickname, p2.nickname], now)
  }

  /** `socket ? Some(id) : None` for a socket looked up at match time. */
  function IfConnected(id: SocketId, sockets: seq<SocketId>): Option<SocketId> {
    if id in sockets then Some(id) else None
  }

  /** The sockets of the socket.io room `r`. */
  function Members(channels: map<RoomId, set<SocketId>>, r: RoomId): set<SocketId> {
    if r in channels then channels[r] else {}
  }

  // ---------------------------------------------------------------------------
  // The stale-room sweep, on values
  // ---------------------------------------------------------------------------

  predicate IsStale(room: Room, now: int) {
    now - room.createdAt > STALE_AFTER
  }

  /** The players of the rooms of `rs`. */
  function PlayersOf(rooms: map<RoomId, Room>, rs: set<RoomId>): set<SocketId> {
    set r, p | r in rs && r in rooms && p in rooms[r].players :: p
  }

  function StaleRooms(rooms: map<RoomId, Room>, now: int): (rs: set<RoomId>)
    ensures forall r :: r in rs <==> r in rooms && IsStale(rooms[r], now)
  {
    set r | r in rooms && IsStale(rooms[r], now)
  }

  /** The rooms a sweep at `now` keeps. */
  function Fresh(rooms: map<RoomId, Room>, now: int): (kept: map<RoomId, Room>)
    ensures forall r :: r in kept <==> r in rooms && !IsStale(rooms[r], now)
    ensures forall r :: r in kept ==> kept[r] == rooms[r]
  {
    map r | r in rooms && !IsStale(rooms[r], now) :: rooms[r]
  }

  /** A second sweep at the same moment changes nothing. */
  lemma SweepIdempotent(rooms: map<RoomId, Room>, now: int)
    ensures Fresh(Fresh(rooms, now), now) == Fresh(rooms, now)
    ensures PlayersOf(Fresh(rooms, now), StaleRooms(Fresh(rooms, now), now)) == {}
  {
  }

  /**
   * The sweep removes a player's mapping because of a stale room it sat in,
   * even when the mapping points to a newer room: a player who left a room
   * with leave_game and was matched again loses the mapping of the new game.
   */
  lemma SweepDropsNewerMapping()
    ensures var rooms := map["OLD" := Room(["a", "b"], ["A", "B"], 0), "NEW" := Room(["a", "c"], ["A", "C"], STALE_AFTER)];
            var pr := map["a" := "NEW", "c" := "NEW"];
            "NEW" in Fresh(rooms, STALE_AFTER + 1) && "a" !in pr - PlayersOf(rooms, StaleRooms(rooms, STALE_AFTER + 1))
  {
    var rooms := map["OLD" := Room(["a", "b"], ["A", "B"], 0), "NEW" := Room(["a", "c"], ["A", "C"], STALE_AFTER)];
    assert "OLD" in StaleRooms(rooms, STALE_AFTER + 1);
    assert "a" in rooms["OLD"].players;
  }

  /** The rooms left once the rooms of `visited` have been looked at. */
  function SweptSoFar(rooms: map<RoomId, Room>, visited: set<RoomId>, now: int): map<RoomId, Room> {
    map r | r in rooms && !(r in visited && IsStale(rooms[r], now)) :: rooms[r]
  }

  /** One more room looked at: it goes if it is stale, with its players. */
  lemma SweepStep(rooms: map<RoomId, Room>, visited: set<RoomId>, r: RoomId, now: int)
    requires r in rooms && r !in visited
    ensures IsStale(rooms[r], now) ==>
      SweptSoFar(rooms, visited + {r}, now) == SweptSoFar(rooms, visited, now) - {r} &&
      PlayersOf(rooms, (visited + {r}) * StaleRooms(rooms, now)) ==
        PlayersOf(rooms, visited * StaleRooms(rooms, now)) + (set p | p in rooms[r].players)
    ensures !IsStale(rooms[r], now) ==>
      SweptSoFar(rooms, visited + {r}, now) == SweptSoFar(rooms, visited, now) &&
      (visited + {r}) * StaleRooms(rooms, now) == visited * StaleRooms(rooms, now)
  {
  }

  lemma RemoveInTurn(m: map<SocketId, RoomId>, a: set<SocketId>, b: set<SocketId>)
    ensures (m - a) - b == m - (a + b)
  {
  }

  /** The sweep's bookkeeping: room r moves from the pending rooms to the visited ones. */
  lemma MoveVisited(pending: set<RoomId>, visited: set<RoomId>, keys: set<RoomId>, r: RoomId)
    requires pending !! visited && pending + visited == keys && r in pending
    ensures (pending - {r}) !! (visited + {r}) && (pending - {r}) + (visited + {r}) == keys
    ensures |pending - {r}| < |pending|
  {
  }

  /** With every room looked at, the sweep so far is the whole sweep. */
  lemma SweepDone(rooms: map<RoomId, Room>, now: int)
    ensures SweptSoFar(rooms, rooms.Keys, now) == Fresh(rooms, now)
    ensures rooms.Keys * StaleRooms(rooms, now) == StaleRooms(rooms, now)
  {
  }

  // ---------------------------------------------------------------------------
  // The server's invariant, on values
  // ---------------------------------------------------------------------------

  /** Every room has two distinct seats and two nicknames, and a non-empty id that was handed out. */
  ghost predicate RoomsOk(rooms: map<RoomId, Room>, used: set<RoomId>) {
    forall r :: r in rooms ==> WellFormedRoom(rooms[r]) && r in used && r != ""
  }

  /** A socket mapped to a room is connected and seated in that live room. */
  ghost predicate MappingOk(pr: map<SocketId, RoomId>, rooms: map<RoomId, Room>, sockets: seq<SocketId>) {
    forall p :: p in pr ==> p in sockets && pr[p] in rooms && p in rooms[pr[p]].players
  }

  /** Opening a room with a fresh id for two connected players, and mapping both to it, keeps the invariant. */
  lemma RoomAdded(rooms: map<RoomId, Room>, pr: map<SocketId, RoomId>, sockets: seq<SocketId>, u: set<RoomId>,
                  r: RoomId, room: Room)
    requires RoomsOk(rooms, u) && MappingOk(pr, rooms, sockets)
    requires r !in u && r != "" && WellFormedRoom(room) && room.players[0] in sockets && room.players[1] in sockets
    ensures RoomsOk(rooms[r := room], u + {r})
    ensures MappingOk(pr[room.players[0] := r][room.players[1] := r], rooms[r := room], sockets)
  {
  }

  /** Deleting a room together with the mappings of its players keeps the invariant. */
  lemma RoomRemoved(rooms: map<RoomId, Room>, pr: map<SocketId, RoomId>, sockets: seq<SocketId>, u: set<RoomId>, r: RoomId)
    requires RoomsOk(rooms, u) && MappingOk(pr, rooms, sockets) && r in rooms
    ensures RoomsOk(rooms - {r}, u)
    ensures MappingOk(pr - (set p | p in rooms[r].players), rooms - {r}, sockets)
  {
  }

  // ---------------------------------------------------------------------------
  // The server
  // ---------------------------------------------------------------------------

  class IoServer {
    var queue: seq<QueueEntry>
    var rooms: map<RoomId, Room>
    var playerRooms: map<SocketId, RoomId>
    /** io.sockets.sockets: the connected sockets, in connection order. */
    var sockets: seq<SocketId>
    /** socket.io rooms: the sockets that joined each room id. */
    var channels: map<RoomId, set<SocketId>>
    var outbox: seq<Emission>
    var timers: seq<Timer>
    /** Every room id ever handed out; new ones are fresh. */
    ghost var usedRoomIds: set<RoomId>

    ghost predicate Valid()
      reads this`queue, this`rooms, this`playerRooms, this`sockets, this`usedRoomIds
    {
      Distinct(sockets) && QueueOk(queue, sockets, playerRooms, 1) && RoomsOk(rooms, usedRoomIds) &&
      MappingOk(playerRooms, rooms, sockets)
    }

    /** Only the outbox may have changed. */
    twostate predicate OnlyEmitted()
      reads this
    {
      queue == old(queue) && rooms == old(rooms) && playerRooms == old(playerRooms) && sockets == old(sockets) &&
      channels == old(channels) && timers == old(timers) && usedRoomIds == old(usedRoomIds)
    }

    constructor()
      ensures Valid()
      ensures queue == [] && rooms == map[] && playerRooms == map[] && sockets == [] && channels == map[]
      ensures outbox == [] && timers == []
    {
      queue := [];
      rooms := map[];
      playerRooms := map[];
      sockets := [];
      channels := map[];
      outbox := [];
      timers := [];
      usedRoomIds := {};
    }

    /** updateQueuePositions. */
    method UpdateQueuePositions()
      modifies this
      ensures OnlyEmitted() && outbox == old(outbox) + PositionUpdates(queue, sockets)
    {
      var position := 1;
      var i := 0;
      while i < |queue|
        invariant 0 <= i <= |queue| && position == i + 1
        invariant OnlyEmitted() && outbox == old(outbox) + PositionUpdates(queue[..i], sockets)
      {
        assert queue[..i + 1][..i] == queue[..i];
        var id := queue[i].id;
        if id in sockets {
          outbox := outbox + [Emission({id}, QueueUpdate(position))];
        }
        position := position + 1;
        i := i + 1;
      }
      assert queue[..i] == queue;
    }

    /** io.on('connection'): a new socket is registered; nothing is emitted. */
    method Connect(s: SocketId)
      requires Valid()
      modifies this
      ensures Valid()
      ensures sockets == if s in old(sockets) then old(sockets) else old(sockets) + [s]
      ensures queue == old(queue) && rooms == old(rooms) && playerRooms == old(playerRooms)
      ensures channels == old(channels) && outbox == old(outbox) && timers == old(timers)
    {
      if s !in sockets {
        sockets := sockets + [s];
      }
    }

    /** The state changes of tryMatchmaking for two queued sockets, before anything is emitted. */
    method OpenRoom(roomId: RoomId, now: int)
      requires Distinct(sockets) && QueueOk(queue, sockets, playerRooms, 2) && RoomsOk(rooms, usedRoomIds)
      requires MappingOk(playerRooms, rooms, sockets)
      requires roomId !in usedRoomIds && roomId != "" && |queue| >= 2
      modifies this
      ensures Valid()
      ensures sockets == old(sockets) && channels == old(channels) && outbox == old(outbox) && timers == old(timers)
      ensures old(queue)[0].id in sockets && old(queue)[1].id in sockets
      ensures var p1, p2 := old(queue)[0], old(queue)[1];
        queue == [] &&
        rooms == old(rooms)[roomId := NewRoom(p1, p2, now)] &&
        playerRooms == old(playerRooms)[p1.id := roomId][p2.id := roomId]
    {
      var player1 := queue[0];
      var player2 := queue[1];
      QueueOpened(queue, sockets, playerRooms);
      var room := NewRoom(player1, player2, now);
      RoomAdded(rooms, playerRooms, sockets, usedRoomIds, roomId, room);
      queue := queue[2..];
      rooms := rooms[roomId := room];
      usedRoomIds := usedRoomIds + {roomId};
      playerRooms := playerRooms[player1.id := roomId][player2.id := roomId];
    }

    /**
     * tryMatchmaking: with two queued sockets, the two oldest leave the queue
     * for a new room with the given id, are mapped to it, join its socket.io
     * room if connected, are told their opponent, and the 3-second countdown
     * starts.
     */
    method TryMatchmaking(roomId: RoomId, now: int)
      requires Distinct(sockets) && QueueOk(queue, sockets, playerRooms, 2) && RoomsOk(rooms, usedRoomIds)
      requires MappingOk(playerRooms, rooms, sockets)
      requires roomId !in usedRoomIds && roomId != ""
      modifies this
      ensures Valid()
      ensures sockets == old(sockets)
      ensures |old(queue)| < 2 ==> (queue == old(queue) && rooms == old(rooms) && playerRooms == old(playerRooms) &&
                                    channels == old(channels) && outbox == old(outbox) && timers == old(timers))
      ensures |old(queue)| >= 2 ==>
        var p1, p2 := old(queue)[0], old(queue)[1];
        queue == [] &&
        rooms == old(rooms)[roomId := NewRoom(p1, p2, now)] &&
        playerRooms == old(playerRooms)[p1.id := roomId][p2.id := roomId] &&
        channels == old(channels)[roomId := Members(old(channels), roomId) + {p1.id, p2.id}] &&
        outbox == old(outbox) + MatchNotices(p1, p2, roomId, sockets) &&
        timers == old(timers) + [Countdown(roomId, IfConnected(p1.id, sockets), IfConnected(p2.id, sockets), p1.nickname, p2.nickname)]
    {
      if |queue| < 2 {
        return;
      }
      var player1 := queue[0];
      var player2 := queue[1];
      OpenRoom(roomId, now);
      var joined := (if player1.id in sockets then {player1.id} else {}) + (if player2.id in sockets then {player2.id} else {});
      assert joined == {player1.id, player2.id};
      channels := channels[roomId := Members(channels, roomId) + joined];
      var socket1 := IfConnected(player1.id, sockets);
      var socket2 := IfConnected(player2.id, sockets);
      outbox := outbox + MatchNotices(player1, player2, roomId, sockets);
      timers := timers + [Countdown(roomId, socket1, socket2, player1.nickname, player2.nickname)];
    }

    /** The queue_joined notice and renumbering of find_game, for a socket free to join. */
    method Enqueue(entry: QueueEntry)
      requires Valid() && entry.id in sockets && entry.id !in QueueIds(queue) && entry.id !in playerRooms
      modifies this
      ensures Distinct(sockets) && QueueOk(queue, sockets, playerRooms, 2) && RoomsOk(rooms, usedRoomIds)
      ensures MappingOk(playerRooms, rooms, sockets)
      ensures queue == old(queue) + [entry] && rooms == old(rooms) && playerRooms == old(playerRooms)
      ensures sockets == old(sockets) && channels == old(channels) && timers == old(timers) && usedRoomIds == old(usedRoomIds)
      ensures outbox == old(outbox) + [Emission({entry.id}, QueueJoined(|queue|))] + PositionUpdates(queue, sockets)
    {
      QueueJoinKept(queue, sockets, playerRooms, entry);
      queue := queue + [entry];
      outbox := outbox + [Emission({entry.id}, QueueJoined(|queue|))];
      UpdateQueuePositions();
    }

    /**
     * find_game: a socket already queued or already mapped to a room gets one
     * error and nothing changes; otherwise it joins the queue, is told its
     * place, everyone queued is renumbered, matchmaking runs, and the
     * 2-minute queue timer starts.
     */
    method FindGame(s: SocketId, nickname: Option<string>, n: nat, now: int, roomId: RoomId)
      requires Valid() && s in sockets
      requires n < 10000 && roomId !in usedRoomIds && roomId != ""
      modifies this
      ensures Valid()
      ensures s in QueueIds(old(queue)) ==>
        outbox == old(outbox) + [Emission({s}, Error(ALREADY_QUEUED))] && OnlyEmitted()
      ensures s !in QueueIds(old(queue)) && s in old(playerRooms) ==>
        outbox == old(outbox) + [Emission({s}, Error(ALREADY_IN_GAME))] && OnlyEmitted()
      ensures s !in QueueIds(old(queue)) && s !in old(playerRooms) ==>
        var q := old(queue) + [QueueEntry(s, QueueNickname(nickname, n), now)];
        sockets == old(sockets) &&
        (|q| < 2 ==>
          queue == q && rooms == old(rooms) && playerRooms == old(playerRooms) && channels == old(channels) &&
          outbox == old(outbox) + [Emission({s}, QueueJoined(|q|))] + PositionUpdates(q, sockets) &&
          timers == old(timers) + [QueueExpiry(s)]) &&
        (|q| >= 2 ==>
          queue == [] && rooms == old(rooms)[roomId := NewRoom(q[0], q[1], now)] &&
          playerRooms == old(playerRooms)[q[0].id := roomId][q[1].id := roomId] &&
          channels == old(channels)[roomId := Members(old(channels), roomId) + {q[0].id, q[1].id}] &&
          outbox == old(outbox) + [Emission({s}, QueueJoined(|q|))] + PositionUpdates(q, sockets) +
            MatchNotices(q[0], q[1], roomId, sockets) &&
          timers == old(timers) + [Countdown(roomId, Some(q[0].id), Some(q[1].id), q[0].nickname, q[1].nickname),
                                   QueueExpiry(s)])
    {
      if s in QueueIds(queue) {
        outbox := outbox + [Emission({s}, Error(ALREADY_QUEUED))];
        return;
      }
      if s in playerRooms {
        outbox := outbox + [Emission({s}, Error(ALREADY_IN_GAME))];
        return;
      }
      Join(QueueEntry(s, QueueNickname(nickname, n), now), roomId, now);
    }

    /** The part of find_game after its checks: queueing, matchmaking and the queue timer. */
    method Join(entry: QueueEntry, roomId: RoomId, now: int)
      requires Valid() && entry.id in sockets && entry.id !in QueueIds(queue) && entry.id !in playerRooms
      requires roomId !in usedRoomIds && roomId != ""
      modifies this
      ensures Valid()
      ensures var q := old(queue) + [entry];
        sockets == old(sockets) &&
        (|q| < 2 ==>
          queue == q && rooms == old(rooms) && playerRooms == old(playerRooms) && channels == old(channels) &&
          outbox == old(outbox) + [Emission({entry.id}, QueueJoined(|q|))] + PositionUpdates(q, sockets) &&
          timers == old(timers) + [QueueExpiry(entry.id)]) &&
        (|q| >= 2 ==>
          queue == [] && rooms == old(rooms)[roomId := NewRoom(q[0], q[1], now)] &&
          playerRooms == old(playerRooms)[q[0].id := roomId][q[1].id := roomId] &&
          channels == old(channels)[roomId := Members(old(channels), roomId) + {q[0].id, q[1].id}] &&
          outbox == old(outbox) + [Emission({entry.id}, QueueJoined(|q|))] + PositionUpdates(q, sockets) +
            MatchNotices(q[0], q[1], roomId, sockets) &&
          timers == old(timers) + [Countdown(roomId, Some(q[0].id), Some(q[1].id), q[0].nickname, q[1].nickname),
                                   QueueExpiry(entry.id)])
    {
      Enqueue(entry);
      TryMatchmaking(roomId, now);
      assert Valid();
      timers := timers + [QueueExpiry(entry.id)];
    }

    /** cancel_queue: leaves the queue if queued, and the rest are renumbered; otherwise nothing. */
    method CancelQueue(s: SocketId)
      requires Valid()
      modifies this
      ensures Valid()
      ensures s !in QueueIds(old(queue)) ==> OnlyEmitted() && outbox == old(outbox)
      ensures s in QueueIds(old(queue)) ==>
        queue == WithoutEntry(old(queue), s) && |queue| == |old(queue)| - 1 &&
        rooms == old(rooms) && playerRooms == old(playerRooms) && sockets == old(sockets) &&
        channels == old(channels) && timers == old(timers) &&
        outbox == old(outbox) + PositionUpdates(queue, sockets)
    {
      WithoutEntryLength(queue, s);
      QueueLeft(queue, sockets, playerRooms, s);
      if s in QueueIds(queue) {
        queue := WithoutEntry(queue, s);
        UpdateQueuePositions();
      }
    }

    /** game_update: relays the snapshot to the other sockets of the sender's socket.io room. */
    method GameUpdate(s: SocketId, snapshot: Snapshot)
      requires Valid()
      modifies this
      ensures OnlyEmitted() && Valid()
      ensures outbox == old(outbox) +
        if s in playerRooms && playerRooms[s] != "" && playerRooms[s] in rooms
        then [Emission(Members(channels, playerRooms[s]) - {s}, OpponentUpdate(snapshot))]
        else []
    {
      if s !in playerRooms || playerRooms[s] == "" {
        return;
      }
      var roomId := playerRooms[s];
      if roomId !in rooms {
        return;
      }
      outbox := outbox + [Emission(Members(channels, roomId) - {s}, OpponentUpdate(snapshot))];
    }

    /**
     * game_over: for a live room, everyone in its socket.io room is told that
     * the nickname at the seat opposite the sender won. The sender is not
     * checked: a socket that is not seated names seat 0. Nothing is recorded.
     */
    method GameOverReport(s: SocketId, roomId: RoomId)
      requires Valid()
      modifies this
      ensures OnlyEmitted() && Valid()
      ensures roomId !in rooms ==> outbox == old(outbox)
      ensures roomId in rooms ==>
        var room := rooms[roomId];
        outbox == old(outbox) + [Emission(Members(channels, roomId), GameOver(room.nicknames[OpponentIndex(room.players, s)], OPPONENT_ENDED))]
    {
      if roomId !in rooms {
        return;
      }
      var room := rooms[roomId];
      var opponentIndex := OpponentIndex(room.players, s);
      outbox := outbox + [Emission(Members(channels, roomId), GameOver(room.nicknames[opponentIndex], OPPONENT_ENDED))];
    }

    /**
     * leave_game: for a live room, the sender leaves its socket.io room and
     * loses its own mapping, and the rest of the socket.io room is told; the
     * room and the other mapping stay.
     */
    method LeaveGame(s: SocketId, roomId: RoomId)
      requires Valid()
      modifies this
      ensures Valid()
      ensures queue == old(queue) && rooms == old(rooms) && sockets == old(sockets) && timers == old(timers)
      ensures roomId !in old(rooms) ==> OnlyEmitted() && outbox == old(outbox)
      ensures roomId in old(rooms) ==>
        playerRooms == old(playerRooms) - {s} &&
        channels == old(channels)[roomId := Members(old(channels), roomId) - {s}] &&
        outbox == old(outbox) + [Emission(Members(old(channels), roomId) - {s}, OpponentDisconnected)]
    {
      if roomId !in rooms {
        return;
      }
      channels := channels[roomId := Members(channels, roomId) - {s}];
      playerRooms := playerRooms - {s};
      assert Members(channels, roomId) - {s} == Members(old(channels), roomId) - {s};
      outbox := outbox + [Emission(Members(channels, roomId) - {s}, OpponentDisconnected)];
    }

    /**
     * The bookkeeping part of disconnect: socket.io has already removed the
     * socket from the connected sockets and from every socket.io room; the
     * handler drops its queue entry (renumbering the rest) and its own mapping.
     */
    method DropSocket(s: SocketId)
      requires Valid() && s in sockets
      modifies this
      ensures Valid()
      ensures sockets == Without(old(sockets), s)
      ensures channels == map r | r in old(channels) :: old(channels)[r] - {s}
      ensures queue == WithoutEntry(old(queue), s)
      ensures playerRooms == old(playerRooms) - {s}
      ensures rooms == old(rooms) && timers == old(timers) && usedRoomIds == old(usedRoomIds)
      ensures outbox == old(outbox) + if s in QueueIds(old(queue)) then PositionUpdates(queue, sockets) else []
    {
      WithoutEntryLength(queue, s);
      QueueClosed(queue, sockets, playerRooms, s);
      sockets := Without(sockets, s);
      channels := map r | r in channels :: channels[r] - {s};
      playerRooms := playerRooms - {s};
      if s in QueueIds(queue) {
        queue := WithoutEntry(queue, s);
        UpdateQueuePositions();
      }
    }

    /**
     * disconnect: after the bookkeeping, if the socket's room lives, the rest
     * of its socket.io room is told and the 60-second forfeit timer is armed.
     */
    method Disconnect(s: SocketId)
      requires Valid() && s in sockets
      modifies this
      ensures Valid()
      ensures sockets == Without(old(sockets), s)
      ensures channels == map r | r in old(channels) :: old(channels)[r] - {s}
      ensures queue == WithoutEntry(old(queue), s)
      ensures playerRooms == old(playerRooms) - {s}
      ensures rooms == old(rooms)
      ensures s !in QueueIds(queue) && s !in playerRooms && s !in sockets
      ensures s !in old(playerRooms) ==> timers == old(timers)
      ensures s in old(playerRooms) ==> timers == old(timers) + [DisconnectGrace(old(playerRooms)[s], s)]
      ensures outbox == old(outbox) +
        (if s in QueueIds(old(queue)) then PositionUpdates(queue, sockets) else []) +
        (if s in old(playerRooms) then [Emission(Members(channels, old(playerRooms)[s]) - {s}, OpponentDisconnected)] else [])
    {
      var live := s in playerRooms && playerRooms[s] != "" && playerRooms[s] in rooms;
      var roomId := if s in playerRooms then playerRooms[s] else "";
      DropSocket(s);
      if live {
        outbox := outbox + [Emission(Members(channels, roomId) - {s}, OpponentDisconnected)];
        timers := timers + [DisconnectGrace(roomId, s)];
      }
    }

    /** The 3-second countdown: each socket captured at match time is told the game starts. */
    method CountdownFinished(t: Timer)
      requires t.Countdown?
      modifies this
      ensures OnlyEmitted()
      ensures outbox == old(outbox) +
        (if t.socket1.Some? then [Emission({t.socket1.value}, GameStart(t.roomId, t.nickname2))] else []) +
        (if t.socket2.Some? then [Emission({t.socket2.value}, GameStart(t.roomId, t.nickname1))] else [])
    {
      if t.socket1.Some? {
        outbox := outbox + [Emission({t.socket1.value}, GameStart(t.roomId, t.nickname2))];
      }
      if t.socket2.Some? {
        outbox := outbox + [Emission({t.socket2.value}, GameStart(t.roomId, t.nickname1))];
      }
    }

    /** The 2-minute queue timer: a socket still queued is dropped, told so, and the rest renumbered. */
    method QueueTimerExpired(s: SocketId)
      requires Valid()
      modifies this
      ensures Valid()
      ensures s !in QueueIds(old(queue)) ==> OnlyEmitted() && outbox == old(outbox)
      ensures s in QueueIds(old(queue)) ==>
        queue == WithoutEntry(old(queue), s) && |queue| == |old(queue)| - 1 &&
        rooms == old(rooms) && playerRooms == old(playerRooms) && sockets == old(sockets) &&
        channels == old(channels) && timers == old(timers) &&
        outbox == old(outbox) + [Emission({s}, QueueTimeout)] + PositionUpdates(queue, sockets)
    {
      WithoutEntryLength(queue, s);
      QueueLeft(queue, sockets, playerRooms, s);
      if s in QueueIds(queue) {
        queue := WithoutEntry(queue, s);
        outbox := outbox + [Emission({s}, QueueTimeout)];
        UpdateQueuePositions();
      }
    }

    /**
     * The 60-second forfeit timer: only if the room still exists and still
     * seats the closed socket, its socket.io room is told that the other seat
     * won, and the room and all its players' mappings go.
     */
    method DisconnectTimerExpired(t: Timer)
      requires Valid() && t.DisconnectGrace?
      modifies this
      ensures Valid()
      ensures queue == old(queue) && sockets == old(sockets) && channels == old(channels) && timers == old(timers)
      ensures !(t.roomId in old(rooms) && t.leaver in old(rooms)[t.roomId].players) ==> OnlyEmitted() && outbox == old(outbox)
      ensures t.roomId in old(rooms) && t.leaver in old(rooms)[t.roomId].players ==>
        var room := old(rooms)[t.roomId];
        rooms == old(rooms) - {t.roomId} &&
        playerRooms == old(playerRooms) - (set p | p in room.players) &&
        outbox == old(outbox) + [Emission(Members(channels, t.roomId),
                                          GameOver(room.nicknames[OpponentIndex(room.players, t.leaver)], OPPONENT_LEFT))]
    {
      if t.roomId in rooms && t.leaver in rooms[t.roomId].players {
        var currentRoom := rooms[t.roomId];
        var opponentIndex := OpponentIndex(currentRoom.players, t.leaver);
        outbox := outbox + [Emission(Members(channels, t.roomId), GameOver(currentRoom.nicknames[opponentIndex], OPPONENT_LEFT))];
        RoomRemoved(rooms, playerRooms, sockets, usedRoomIds, t.roomId);
        rooms := rooms - {t.roomId};
        playerRooms := playerRooms - (set p | p in currentRoom.players);
      }
    }

    /** One iteration of the sweep: room r goes, with its players' mappings, if it is stale. */
    method SweepRoom(r: RoomId, now: int)
      requires Valid() && r in rooms
      modifies this
      ensures Valid()
      ensures queue == old(queue) && sockets == old(sockets) && channels == old(channels)
      ensures outbox == old(outbox) && timers == old(timers)
      ensures IsStale(old(rooms)[r], now) ==>
        rooms == old(rooms) - {r} && playerRooms == old(playerRooms) - (set p | p in old(rooms)[r].players)
      ensures !IsStale(old(rooms)[r], now) ==> rooms == old(rooms) && playerRooms == old(playerRooms)
    {
      var room := rooms[r];
      if now - room.createdAt > STALE_AFTER {
        RoomRemoved(rooms, playerRooms, sockets, usedRoomIds, r);
        playerRooms := playerRooms - (set p | p in room.players);
        rooms := rooms - {r};
      }
    }

    /** The sweep's step: after the rooms of `visited`, room r is looked at. */
    method SweepVisit(ghost rooms0: map<RoomId, Room>, ghost pr0: map<SocketId, RoomId>, ghost visited: set<RoomId>,
                      r: RoomId, now: int)
      requires Valid() && r in rooms0 && r !in visited
      requires rooms == SweptSoFar(rooms0, visited, now)
      requires playerRooms == pr0 - PlayersOf(rooms0, visited * StaleRooms(rooms0, now))
      modifies this
      ensures Valid()
      ensures rooms == SweptSoFar(rooms0, visited + {r}, now)
      ensures playerRooms == pr0 - PlayersOf(rooms0, (visited + {r}) * StaleRooms(rooms0, now))
      ensures queue == old(queue) && sockets == old(sockets) && channels == old(channels)
      ensures outbox == old(outbox) && timers == old(timers)
    {
      SweepStep(rooms0, visited, r, now);
      RemoveInTurn(pr0, PlayersOf(rooms0, visited * StaleRooms(rooms0, now)), set p | p in rooms0[r].players);
      assert r in rooms && rooms[r] == rooms0[r];
      SweepRoom(r, now);
    }

    /**
     * The periodic sweep: every room created more than an hour before `now`
     * is deleted together with the mappings of its players; the others stay.
     * Rooms are visited in an arbitrary order, and the outcome does not
     * depend on it.
     */
    method Sweep(now: int)
      requires Valid()
      modifies this
      ensures Valid()
      ensures rooms == Fresh(old(rooms), now)
      ensures playerRooms == old(playerRooms) - PlayersOf(old(rooms), StaleRooms(old(rooms), now))
      ensures queue == old(queue) && sockets == old(sockets) && channels == old(channels)
      ensures outbox == old(outbox) && timers == old(timers)
    {
      ghost var rooms0, pr0 := rooms, playerRooms;
      var pending := rooms.Keys;
      ghost var visited: set<RoomId> := {};
      while pending != {}
        invariant pending !! visited && pending + visited == rooms0.Keys
        invariant rooms == SweptSoFar(rooms0, visited, now)
        invariant playerRooms == pr0 - PlayersOf(rooms0, visited * StaleRooms(rooms0, now))
        invariant Valid()
        invariant queue == old(queue) && sockets == old(sockets) && channels == old(channels)
        invariant outbox == old(outbox) && timers == old(timers)
        decreases |pending|
      {
        var r :| r in pending;
        SweepVisit(rooms0, pr0, visited, r, now);
        MoveVisited(pending, visited, rooms0.Keys, r);
        pending := pending - {r};
        visited := visited + {r};
      }
      SweepDone(rooms0, now);
    }

    /** The environment runs pending timer k; it leaves the pending list first. */
    method FireTimer(k: int)
      requires Valid() && 0 <= k < |timers|
      modifies this
      ensures Valid()
    {
      var t := timers[k];
      timers := timers[..k] + timers[k + 1..];
      match t
      case Countdown(_, _, _, _, _) => CountdownFinished(t);
      case QueueExpiry(s) => QueueTimerExpired(s);
      case DisconnectGrace(_, _) => DisconnectTimerExpired(t);
    }
  }
}
