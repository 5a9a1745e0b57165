/** The online room table: rooms stored under their six-character ids, created by a host,
    joined by at most one guest while they wait, and listed in the lobby newest first. The
    database is held here as an in-memory map from room id to room; the player ids and clock
    readings the client makes are parameters, and its random draws a stream. */
module RoomTable {
  import opened Text

  // ---------------------------------------------------------------- records

  datatype RoomStatus = Waiting | Ready | Playing | Finished

  datatype RoomWinner = HostWins | GuestWins | DrawGame

  datatype Question = Question(sentence: string, targetWord: string, imageHint: string, distractors: seq<string>)

  datatype OnlinePlayer = OnlinePlayer(
    id: string, name: string, score: int, health: int,
    currentAnswer: string, isReady: bool, lastActive: int)

  /** A room. The optional fields are absent until set (a guest, the question, the winner,
      the start time). */
  datatype Room = Room(
    id: string, hostId: string, hostName: string,
    guestId: Option<string>, guestName: Option<string>,
    status: RoomStatus, currentLevel: int, currentQuestion: Option<Question>,
    host: OnlinePlayer, guest: Option<OnlinePlayer>,
    winner: Option<RoomWinner>, createdAt: int, gameStartedAt: Option<int>)

  /** A player's record as the host or the guest first gets it: no score, full health, ready. */
  function NewPlayer(id: string, name: string, now: int): OnlinePlayer
  {
    OnlinePlayer(id, name, 0, 100, "", true, now)
  }

  // ---------------------------------------------------------------- room ids

  /** The room-id alphabet: capitals and digits without the look-alikes `0`, `O`, `1`, `I`. */
  const ROOM_ID_CHARS := "ABCDEFGHJKLMNPQRSTUVWXYZ23456789"

  /** The `k`-th character of the room-id alphabet. */
  function RoomIdChar(k: nat): (c: char)
    requires k < 32
    ensures c != '0' && c != 'O' && c != '1' && c != 'I'
    ensures 'A' <= c <= 'Z' || '2' <= c <= '9'
  {
    if k < 8 then ('A' as int + k) as char
    else if k < 13 then ('J' as int + (k - 8)) as char
    else if k < 24 then ('P' as int + (k - 13)) as char
    else ('2' as int + (k - 24)) as char
  }

  /** `RoomIdChar` is the alphabet, character by character. */
  lemma RoomIdCharIsListed(k: nat)
    requires k < 32
    ensures |ROOM_ID_CHARS| == 32 && RoomIdChar(k) == ROOM_ID_CHARS[k]
  {
  }

  predicate RoomIdDraws(draws: seq<nat>)
  {
    forall k :: 0 <= k < |draws| ==> draws[k] < 32
  }

  /** `generateRoomId`: six characters, each drawn from the alphabet. */
  method GenerateRoomId(draws: seq<nat>) returns (id: string)
    requires |draws| == 6 && RoomIdDraws(draws)
    ensures |id| == 6 && forall k :: 0 <= k < 6 ==> id[k] == RoomIdChar(draws[k])
  {
    id := "";
    var i := 0;
    while i < 6
      invariant 0 <= i <= 6 && |id| == i
      invariant forall k :: 0 <= k < i ==> id[k] == RoomIdChar(draws[k])
    {
      id := id + [RoomIdChar(draws[i])];
      i := i + 1;
    }
  }

  /** Every generated id is six characters of the alphabet, none of them a look-alike. */
  lemma RoomIdsAreUnambiguous(id: string, draws: seq<nat>)
    requires |draws| == 6 && RoomIdDraws(draws)
    requires |id| == 6 && forall k :: 0 <= k < 6 ==> id[k] == RoomIdChar(draws[k])
    ensures forall k :: 0 <= k < |id| ==> id[k] in ROOM_ID_CHARS
    ensures '0' !in id && 'O' !in id && '1' !in id && 'I' !in id
  {
    forall k | 0 <= k < |id| ensures id[k] in ROOM_ID_CHARS {
      RoomIdCharIsListed(draws[k]);
    }
  }

  // ---------------------------------------------------------------- joining and leaving

  /** JavaScript truthiness of an optional id: present and not empty. */
  predicate Truthy(s: Option<string>)
  {
    s.Some? && s.value != ""
  }

  datatype JoinResult = Joined(playerId: string) | NoSuchRoom | AlreadyTaken | AlreadyStarted

  /** Why a join is refused, checked in this order: the room does not exist, it already has a
      guest, or its game has begun. */
  function JoinRefusal(room: Option<Room>, playerId: string): (r: JoinResult)
    ensures r.Joined? <==> room.Some? && !Truthy(room.value.guestId) && room.value.status == Waiting
    ensures r.Joined? ==> r.playerId == playerId
  {
    if room.None? then NoSuchRoom
    else if Truthy(room.value.guestId) then AlreadyTaken
    else if room.value.status != Waiting then AlreadyStarted
    else Joined(playerId)
  }

  /** The room after a guest joins: the guest's id, name and record are set and the room is
      ready. */
  function WithGuest(r: Room, guestName: string, playerId: string, now: int): Room
  {
    r.(guestId := Some(playerId), guestName := Some(guestName), status := Ready,
       guest := Some(NewPlayer(playerId, guestName, now)))
  }

  /** The room after its guest leaves: the guest fields are gone and the room waits again. */
  function WithoutGuest(r: Room): Room
  {
    r.(guestId := None, guestName := None, status := Waiting, guest := None)
  }

  /** A room waiting without a guest is the same room again after a guest joins and leaves. */
  lemma JoinLeaveRoundTrip(r: Room, guestName: string, playerId: string, now: int)
    requires r.status == Waiting && r.guestId.None? && r.guestName.None? && r.guest.None?
    ensures WithoutGuest(WithGuest(r, guestName, playerId, now)) == r
    ensures WithGuest(r, guestName, playerId, now).status != Waiting
  {
  }

  /** A freshly created room: waiting, at level 0, with only its host. */
  function NewRoom(roomId: string, playerId: string, hostName: string, now: int): Room
  {
    Room(roomId, playerId, hostName, None, None, Waiting, 0, None,
         NewPlayer(playerId, hostName, now), None, None, now, None)
  }

  /** A new room takes exactly one guest: the first join succeeds and leaves the room ready,
      and every further join is refused until the guest leaves. */
  lemma NewRoomTakesOneGuest(roomId: string, playerId: string, hostName: string, now: int,
                             guestName: string, guestIdA: string, guestIdB: string)
    requires guestIdA != ""
    ensures var r := NewRoom(roomId, playerId, hostName, now);
      && JoinRefusal(Some(r), guestIdA) == Joined(guestIdA)
      && JoinRefusal(Some(WithGuest(r, guestName, guestIdA, now)), guestIdB) == AlreadyTaken
      && JoinRefusal(Some(WithoutGuest(WithGuest(r, guestName, guestIdA, now))), guestIdB) == Joined(guestIdB)
  {
  }

  /** Clearing both players' answers for the next question; a room without a guest keeps none. */
  function ClearedAnswers(r: Room): Room
  {
    r.(host := r.host.(currentAnswer := ""),
       guest := if r.guest.Some? then Some(r.guest.value.(currentAnswer := "")) else None)
  }

  // ---------------------------------------------------------------- the lobby list

  /** The waiting rooms among those stored under `keys`, in the order of `keys`. */
  function WaitingOf(keys: seq<string>, rooms: map<string, Room>): (r: seq<Room>)
    requires forall k :: k in keys ==> k in rooms
    decreases |keys|
  {
    if keys == [] then []
    else
      var rest := WaitingOf(keys[..|keys| - 1], rooms);
      var room := rooms[keys[|keys| - 1]];
      rest + (if room.status == Waiting then [room] else [])
  }

  lemma {:induction false} WaitingOfSpec(keys: seq<string>, rooms: map<string, Room>)
    requires forall k :: k in keys ==> k in rooms
    ensures forall x :: x in WaitingOf(keys, rooms) <==> x.status == Waiting && exists k :: k in keys && rooms[k] == x
    decreases |keys|
  {
    if keys != [] {
      var init := keys[..|keys| - 1];
      WaitingOfSpec(init, rooms);
      assert forall k :: k in keys <==> k in init || k == keys[|keys| - 1];
    }
  }

  /** Collecting from two runs of keys is collecting from each in turn: every waiting room
      is listed once per key it is stored under, in the order of the keys. */
  lemma {:induction false} WaitingOfAppend(a: seq<string>, b: seq<string>, rooms: map<string, Room>)
    requires forall k :: k in a + b ==> k in rooms
    ensures WaitingOf(a + b, rooms) == WaitingOf(a, rooms) + WaitingOf(b, rooms)
    decreases |b|
  {
    if b == [] {
      assert a + b == a;
    } else {
      var init := b[..|b| - 1];
      assert (a + b)[..|a + b| - 1] == a + init;
      assert (a + b)[|a + b| - 1] == b[|b| - 1];
      WaitingOfAppend(a, init, rooms);
    }
  }

  /** One key: its room is listed exactly when it waits. */
  lemma WaitingOfOne(k: string, rooms: map<string, Room>)
    requires k in rooms
    ensures WaitingOf([k], rooms) == (if rooms[k].status == Waiting then [rooms[k]] else [])
  {
    assert [k][..0] == [];
  }

  /** Sorted as the lobby shows the rooms: newest first. */
  predicate NewestFirst(rs: seq<Room>)
  {
    forall i, j :: 0 <= i < j < |rs| ==> rs[i].createdAt >= rs[j].createdAt
  }

  /** Inserting a room into a newest-first list, before the first one that is older. */
  function Insert(x: Room, s: seq<Room>): (r: seq<Room>)
    ensures |r| == |s| + 1
    decreases |s|
  {
    if s == [] || x.createdAt >= s[0].createdAt then [x] + s
    else [s[0]] + Insert(x, s[1..])
  }

  lemma {:induction false} InsertPermutes(x: Room, s: seq<Room>)
    ensures multiset(Insert(x, s)) == multiset(s) + multiset{x}
    decreases |s|
  {
    if s != [] && x.createdAt < s[0].createdAt {
      InsertPermutes(x, s[1..]);
      assert s == [s[0]] + s[1..];
    }
  }

  /** Inserting a room no newer than `b` into rooms no newer than `b` leaves them all no
      newer than `b`. */
  lemma {:induction false} InsertBelow(x: Room, s: seq<Room>, b: int)
    requires x.createdAt <= b && forall k :: 0 <= k < |s| ==> s[k].createdAt <= b
    ensures forall k :: 0 <= k < |Insert(x, s)| ==> Insert(x, s)[k].createdAt <= b
    decreases |s|
  {
    if s != [] && x.createdAt < s[0].createdAt {
      InsertBelow(x, s[1..], b);
      assert Insert(x, s) == [s[0]] + Insert(x, s[1..]);
    }
  }

  lemma {:induction false} InsertSorts(x: Room, s: seq<Room>)
    requires NewestFirst(s)
    ensures NewestFirst(Insert(x, s))
    decreases |s|
  {
    if s != [] && x.createdAt < s[0].createdAt {
      var tail := Insert(x, s[1..]);
      InsertSorts(x, s[1..]);
      InsertBelow(x, s[1..], s[0].createdAt);
      var r := Insert(x, s);
      assert r == [s[0]] + tail;
      forall i, j | 0 <= i < j < |r| ensures r[i].createdAt >= r[j].createdAt {
        assert r[j] == tail[j - 1];
        if i > 0 {
          assert r[i] == tail[i - 1];
        }
      }
    }
  }

  /** `rooms.sort((a, b) => b.createdAt - a.createdAt)`. */
  function SortNewest(rs: seq<Room>): (r: seq<Room>)
    ensures |r| == |rs|
    decreases |rs|
  {
    if rs == [] then [] else Insert(rs[0], SortNewest(rs[1..]))
  }

  /** The lobby order is newest first and holds exactly the rooms it was given. */
  lemma {:induction false} SortNewestSpec(rs: seq<Room>)
    ensures NewestFirst(SortNewest(rs)) && multiset(SortNewest(rs)) == multiset(rs)
    decreases |rs|
  {
    if rs != [] {
      SortNewestSpec(rs[1..]);
      InsertSorts(rs[0], SortNewest(rs[1..]));
      InsertPermutes(rs[0], SortNewest(rs[1..]));
      assert rs == [rs[0]] + rs[1..];
    }
  }

  // ---------------------------------------------------------------- the table

  class Rooms {
    var rooms: map<string, Room>

    constructor()
      ensures rooms == map[]
    {
      rooms := map[];
    }

    /** `createOnlineRoom`: a new room under a freshly drawn id. A room already stored under
        that id is overwritten. */
    method Create(hostName: string, draws: seq<nat>, playerId: string, now: int) returns (roomId: string)
      requires |draws| == 6 && RoomIdDraws(draws)
      modifies this
      ensures |roomId| == 6 && forall k :: 0 <= k < 6 ==> roomId[k] == RoomIdChar(draws[k])
      ensures rooms == old(rooms)[roomId := NewRoom(roomId, playerId, hostName, now)]
    {
      roomId := GenerateRoomId(draws);
      rooms := rooms[roomId := NewRoom(roomId, playerId, hostName, now)];
    }

    /** `joinOnlineRoom`: refused, changing nothing, when the room does not exist, has a
        guest, or is not waiting; otherwise the guest joins. */
    method Join(roomId: string, guestName: string, playerId: string, now: int) returns (result: JoinResult)
      modifies this
      ensures result == JoinRefusal(if roomId in old(rooms) then Some(old(rooms)[roomId]) else None, playerId)
      ensures !result.Joined? ==> rooms == old(rooms)
      ensures result.Joined? ==>
        roomId in old(rooms) && rooms == old(rooms)[roomId := WithGuest(old(rooms)[roomId], guestName, playerId, now)]
    {
      var found := if roomId in rooms then Some(rooms[roomId]) else None;
      result := JoinRefusal(found, playerId);
      if result.Joined? {
        rooms := rooms[roomId := WithGuest(rooms[roomId], guestName, playerId, now)];
      }
    }

    /** `startOnlineGame`: the game begins with its first question. */
    method StartGame(roomId: string, question: Option<Question>, now: int)
      modifies this
      ensures roomId in old(rooms) ==>
        rooms == old(rooms)[roomId := old(rooms)[roomId].(status := Playing, currentQuestion := question, gameStartedAt := Some(now))]
      ensures roomId !in old(rooms) ==> rooms == old(rooms)
    {
      if roomId in rooms {
        rooms := rooms[roomId := rooms[roomId].(status := Playing, currentQuestion := question, gameStartedAt := Some(now))];
      }
    }

    /** `submitAnswer`: the host's or the guest's current answer. */
    method SubmitAnswer(roomId: string, isHost: bool, answer: string, now: int)
      modifies this
      ensures roomId in old(rooms) && isHost ==>
        rooms == old(rooms)[roomId := old(rooms)[roomId].(host := old(rooms)[roomId].host.(currentAnswer := answer, lastActive := now))]
      ensures roomId in old(rooms) && !isHost && old(rooms)[roomId].guest.Some? ==>
        rooms == old(rooms)[roomId := old(rooms)[roomId].(guest := Some(old(rooms)[roomId].guest.value.(currentAnswer := answer, lastActive := now)))]
      ensures roomId !in old(rooms) || (!isHost && old(rooms)[roomId].guest.None?) ==> rooms == old(rooms)
    {
      if roomId !in rooms {
        return;
      }
      var r := rooms[roomId];
      if isHost {
        rooms := rooms[roomId := r.(host := r.host.(currentAnswer := answer, lastActive := now))];
      } else if r.guest.Some? {
        rooms := rooms[roomId := r.(guest := Some(r.guest.value.(currentAnswer := answer, lastActive := now)))];
      }
    }

    /** `updatePlayerStats`: the host's or the guest's score and health. */
    method UpdateStats(roomId: string, isHost: bool, score: int, health: int, now: int)
      modifies this
      ensures roomId in old(rooms) && isHost ==>
        rooms == old(rooms)[roomId := old(rooms)[roomId].(host := old(rooms)[roomId].host.(score := score, health := health, lastActive := now))]
      ensures roomId in old(rooms) && !isHost && old(rooms)[roomId].guest.Some? ==>
        rooms == old(rooms)[roomId := old(rooms)[roomId].(guest := Some(old(rooms)[roomId].guest.value.(score := score, health := health, lastActive := now)))]
      ensures roomId !in old(rooms) || (!isHost && old(rooms)[roomId].guest.None?) ==> rooms == old(rooms)
    {
      if roomId !in rooms {
        return;
      }
      var r := rooms[roomId];
      if isHost {
        rooms := rooms[roomId := r.(host := r.host.(score := score, health := health, lastActive := now))];
      } else if r.guest.Some? {
        rooms := rooms[roomId := r.(guest := Some(r.guest.value.(score := score, health := health, lastActive := now)))];
      }
    }

    /** `nextQuestion`: the level index and question are set and both answers cleared. */
    method NextQuestion(roomId: string, levelIndex: int, question: Option<Question>)
      modifies this
      ensures roomId in old(rooms) ==>
        rooms == old(rooms)[roomId := ClearedAnswers(old(rooms)[roomId]).(currentLevel := levelIndex, currentQuestion := question)]
      ensures roomId !in old(rooms) ==> rooms == old(rooms)
    {
      if roomId in rooms {
        rooms := rooms[roomId := ClearedAnswers(rooms[roomId]).(currentLevel := levelIndex, currentQuestion := question)];
      }
    }

    /** `endOnlineGame`: the room is finished with its winner. */
    method EndGame(roomId: string, winner: RoomWinner)
      modifies this
      ensures roomId in old(rooms) ==>
        rooms == old(rooms)[roomId := old(rooms)[roomId].(status := Finished, winner := Some(winner))]
      ensures roomId !in old(rooms) ==> rooms == old(rooms)
    {
      if roomId in rooms {
        rooms := rooms[roomId := rooms[roomId].(status := Finished, winner := Some(winner))];
      }
    }

    /** `deleteRoom` */
    method Delete(roomId: string)
      modifies this
      ensures rooms == old(rooms) - {roomId}
    {
      rooms := rooms - {roomId};
    }

    /** `leaveRoom`: the host leaving deletes the room; the guest leaving removes the guest and
        the room waits again. */
    method Leave(roomId: string, isHost: bool)
      modifies this
      ensures isHost ==> rooms == old(rooms) - {roomId}
      ensures !isHost && roomId in old(rooms) ==> rooms == old(rooms)[roomId := WithoutGuest(old(rooms)[roomId])]
      ensures !isHost && roomId !in old(rooms) ==> rooms == old(rooms)
    {
      if isHost {
        Delete(roomId);
      } else if roomId in rooms {
        rooms := rooms[roomId := WithoutGuest(rooms[roomId])];
      }
    }

    /** `getActiveRooms`: the waiting rooms, newest first. `keys` is the order in which the
        stored rooms are enumerated, each id once. */
    method ActiveRooms(keys: seq<string>) returns (active: seq<Room>)
      requires forall k :: k in keys <==> k in rooms
      ensures NewestFirst(active)
      ensures forall x :: x in active <==> x in rooms.Values && x.status == Waiting
      ensures multiset(active) == multiset(WaitingOf(keys, rooms))
      ensures active == SortNewest(WaitingOf(keys, rooms))
      ensures |active| <= |keys|
    {
      var waiting: seq<Room> := [];
      var i := 0;
      while i < |keys|
        invariant 0 <= i <= |keys| && waiting == WaitingOf(keys[..i], rooms) && |waiting| <= i
      {
        var room := rooms[keys[i]];
        assert keys[..i + 1][..i] == keys[..i];
        if room.status == Waiting {
          waiting := waiting + [room];
        }
        i := i + 1;
      }
      assert keys[..i] == keys;
      active := SortNewest(waiting);
      SortNewestSpec(waiting);
      WaitingOfSpec(keys, rooms);
      assert |active| == |waiting| by {
        assert |multiset(active)| == |multiset(waiting)|;
      }
      forall x ensures x in active <==> x in waiting {
        assert x in active <==> x in multiset(active);
      }
      forall x | x in rooms.Values && x.status == Waiting ensures x in waiting {
        var k :| k in rooms && rooms[k] == x;
        assert k in keys;
      }
    }
  }
}
