/**
 * What the two matchmaking servers (party/index.ts and server.js) have in
 * common: a JavaScript Map kept as a sequence in insertion order, the queue
 * of waiting players, the seat arithmetic of a two-player room, and the
 * fallback nickname.
 */
module Lobby {
  import opened Wrappers

  type ClientId = string
  type RoomId = string

  /** A waiting player; the queue is a sequence of these, oldest first. */
  datatype QueueEntry = QueueEntry(id: ClientId, nickname: string, joinedAt: int)

  /** A field of a client's game_update that the server forwards without looking at it. */
  type Json = string

  /** The fields of a game_update that are relayed to the opponent. */
  datatype Snapshot = Snapshot(board: Json, score: Json, lines: Json, level: Json, gameOver: Json)

  const ALREADY_QUEUED: string := "Już jesteś w kolejce"
  const ALREADY_IN_GAME: string := "Już jesteś w grze"
  const OPPONENT_LEFT: string := "Przeciwnik się rozłączył"

  /** Array.prototype.indexOf: the first index holding x, or -1. */
  function IndexOf(s: seq<ClientId>, x: ClientId): (i: int)
    ensures -1 <= i < |s|
    ensures i == -1 <==> x !in s
    ensures i >= 0 ==> s[i] == x && x !in s[..i]
  {
    if s == [] then -1
    else if s[0] == x then 0
    else
      var j := IndexOf(s[1..], x);
      assert j >= 0 ==> s[1..][..j] == s[1..j + 1];
      if j == -1 then -1 else j + 1
  }

  /** `indexOf(id) === 0 ? 1 : 0`. */
  function OpponentIndex(players: seq<ClientId>, id: ClientId): int {
    if IndexOf(players, id) == 0 then 1 else 0
  }

  /** The seat opposite a player of a two-seat room holds the other player; a stranger is sent to seat 0. */
  lemma OpponentIndexSeats(players: seq<ClientId>, id: ClientId)
    requires |players| == 2 && players[0] != players[1]
    ensures id == players[0] ==> OpponentIndex(players, id) == 1
    ensures id == players[1] ==> OpponentIndex(players, id) == 0
    ensures id !in players ==> OpponentIndex(players, id) == 0
    ensures id in players ==> players[OpponentIndex(players, id)] != id
  {
  }

  function QueueIds(q: seq<QueueEntry>): (ids: seq<ClientId>)
    ensures |ids| == |q| && forall i :: 0 <= i < |q| ==> ids[i] == q[i].id
  {
    seq(|q|, i requires 0 <= i < |q| => q[i].id)
  }

  predicate DistinctIds(q: seq<QueueEntry>) {
    forall i, j :: 0 <= i < j < |q| ==> q[i].id != q[j].id
  }

  predicate Distinct(s: seq<ClientId>) {
    forall i, j :: 0 <= i < j < |s| ==> s[i] != s[j]
  }

  /** Map.delete on the queue: the entries of other connections, in order. */
  function WithoutEntry(q: seq<QueueEntry>, id: ClientId): (r: seq<QueueEntry>)
    ensures id !in QueueIds(r)
    ensures forall e :: e in r <==> e in q && e.id != id
    ensures |r| <= |q|
  {
    if q == [] then []
    else if q[0].id == id then WithoutEntry(q[1..], id)
    else [q[0]] + WithoutEntry(q[1..], id)
  }

  /** Removing an absent connection leaves the queue as it is; removing a present one shortens it. */
  lemma {:induction false} WithoutEntryLength(q: seq<QueueEntry>, id: ClientId)
    requires DistinctIds(q)
    ensures id !in QueueIds(q) ==> WithoutEntry(q, id) == q
    ensures id in QueueIds(q) ==> |WithoutEntry(q, id)| == |q| - 1
    ensures DistinctIds(WithoutEntry(q, id))
  {
    if q != [] {
      assert DistinctIds(q[1..]);
      assert QueueIds(q) == [q[0].id] + QueueIds(q[1..]);
      WithoutEntryLength(q[1..], id);
      if q[0].id == id {
        assert id !in QueueIds(q[1..]);
      } else {
        var r := [q[0]] + WithoutEntry(q[1..], id);
        forall i, j | 0 <= i < j < |r|
          ensures r[i].id != r[j].id
        {
          if i == 0 {
            assert r[j] in WithoutEntry(q[1..], id);
            assert r[j] in q[1..];
          }
        }
      }
    }
  }

  /** Map.delete on the connections: the other connections, in order. */
  function Without(s: seq<ClientId>, id: ClientId): (r: seq<ClientId>)
    ensures id !in r
    ensures forall c :: c in r <==> c in s && c != id
  {
    if s == [] then []
    else if s[0] == id then Without(s[1..], id)
    else [s[0]] + Without(s[1..], id)
  }

  lemma {:induction false} WithoutDistinct(s: seq<ClientId>, id: ClientId)
    requires Distinct(s)
    ensures Distinct(Without(s, id))
    ensures |Without(s, id)| == if id in s then |s| - 1 else |s|
  {
    if s != [] {
      assert Distinct(s[1..]);
      WithoutDistinct(s[1..], id);
      if s[0] != id {
        var r := [s[0]] + Without(s[1..], id);
        forall i, j | 0 <= i < j < |r|
          ensures r[i] != r[j]
        {
          if i == 0 {
            assert r[j] in Without(s[1..], id);
          }
        }
      } else {
        assert id !in s[1..];
      }
    }
  }

  /** The decimal digits of n, as Number.prototype.toString writes them. */
  function Decimal(n: nat): (s: string)
    ensures |s| >= 1 && forall i :: 0 <= i < |s| ==> '0' <= s[i] <= '9'
    ensures n >= 10 ==> s[0] != '0'
  {
    if n < 10 then ["0123456789"[n]]
    else Decimal(n / 10) + ["0123456789"[n % 10]]
  }

  /** `nickname || GRACZ_n`: a missing or empty nickname is replaced by a generated one. */
  function QueueNickname(nickname: Option<string>, n: nat): (r: string)
    ensures r != ""
    ensures nickname.Some? && nickname.value != "" ==> r == nickname.value
    ensures (nickname.None? || nickname.value == "") ==> |r| > 6 && r[..6] == "GRACZ_" && r[6..] == Decimal(n)
  {
    if nickname.Some? && nickname.value != "" then nickname.value else "GRACZ_" + Decimal(n)
  }

  /** The value of a string of decimal digits. */
  function DigitsValue(s: string): (n: nat)
    requires forall i :: 0 <= i < |s| ==> '0' <= s[i] <= '9'
  {
    if s == [] then 0 else DigitsValue(s[..|s| - 1]) * 10 + (s[|s| - 1] - '0') as nat
  }

  /** Reading back the generated digits gives the number. */
  lemma {:induction false} DecimalRoundTrip(n: nat)
    ensures DigitsValue(Decimal(n)) == n
  {
    var s := Decimal(n);
    if n < 10 {
      DigitValue(n);
      assert s[..|s| - 1] == [];
    } else {
      DecimalRoundTrip(n / 10);
      DigitValue(n % 10);
      assert s[..|s| - 1] == Decimal(n / 10);
      assert DigitsValue(s) == (n / 10) * 10 + n % 10;
    }
  }

  /** The digit character of k stands for k. */
  lemma DigitValue(k: nat)
    requires k < 10
    ensures ("0123456789"[k] - '0') as nat == k
  {
  }

  /** Queue entries are distinct, connected, at most `bound` many, and none of them is in a room. */
  ghost predicate QueueOk(q: seq<QueueEntry>, conns: seq<ClientId>, pr: map<ClientId, RoomId>, bound: int) {
    |q| <= bound && DistinctIds(q) &&
    forall i :: 0 <= i < |q| ==> q[i].id in conns && q[i].id !in pr
  }

  /** A connected player outside the queue and every room may join the queue. */
  lemma QueueJoinKept(q: seq<QueueEntry>, conns: seq<ClientId>, pr: map<ClientId, RoomId>, e: QueueEntry)
    requires QueueOk(q, conns, pr, 1) && e.id !in QueueIds(q) && e.id in conns && e.id !in pr
    ensures QueueOk(q + [e], conns, pr, 2)
  {
    assert forall i :: 0 <= i < |q| ==> q[i].id == QueueIds(q)[i];
  }

  /** Leaving the queue keeps the invariant. */
  lemma QueueLeft(q: seq<QueueEntry>, conns: seq<ClientId>, pr: map<ClientId, RoomId>, c: ClientId)
    requires QueueOk(q, conns, pr, 1)
    ensures QueueOk(WithoutEntry(q, c), conns, pr, 1)
  {
    WithoutEntryLength(q, c);
    var q2 := WithoutEntry(q, c);
    forall i | 0 <= i < |q2|
      ensures q2[i].id in conns && q2[i].id !in pr
    {
      assert q2[i] in q;
    }
  }

  /** Closing connection c, with its queue entry and room mapping, keeps the queue invariant. */
  lemma QueueClosed(q: seq<QueueEntry>, conns: seq<ClientId>, pr: map<ClientId, RoomId>, c: ClientId)
    requires Distinct(conns) && QueueOk(q, conns, pr, 1)
    ensures Distinct(Without(conns, c))
    ensures QueueOk(WithoutEntry(q, c), Without(conns, c), pr - {c}, 1)
  {
    WithoutDistinct(conns, c);
    WithoutEntryLength(q, c);
    var q2 := WithoutEntry(q, c);
    forall i | 0 <= i < |q2|
      ensures q2[i].id in Without(conns, c) && q2[i].id !in pr - {c}
    {
      assert q2[i] in q;
    }
  }

  /** Matchmaking takes the two players of a full queue: both connected, distinct and in no room. */
  lemma QueueOpened(q: seq<QueueEntry>, conns: seq<ClientId>, pr: map<ClientId, RoomId>)
    requires QueueOk(q, conns, pr, 2) && |q| >= 2
    ensures |q| == 2 && q[2..] == []
    ensures q[0].id in conns && q[1].id in conns && q[0].id != q[1].id
    ensures q[0].id !in pr && q[1].id !in pr
  {
  }
}
