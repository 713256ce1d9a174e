/** The room fan-out of lib/websocket-server.ts: `MockWebSocketServer` with its
    connection registry and its rooms, each a JavaScript `Set` of user ids. A `Set` keeps
    insertion order, which fixes the order of a broadcast, so a room is a sequence without
    duplicates. Sending is what the server does to the outside world; every operation
    returns the deliveries it makes instead of logging them. */
module WebSocketServer {
  import opened Seqs

  /** The messages the room operations broadcast; `timestamp` is the `new Date()` of the call. */
  datatype RoomEvent =
    | UserJoined(roomId: string, userId: string, timestamp: int)
    | UserLeft(roomId: string, userId: string, timestamp: int)
    | RoomMessage(roomId: string, userId: string, text: string, timestamp: int)
    | CodeUpdate(roomId: string, userId: string, code: string, language: string, timestamp: int)

  /** One `sendToUser` that found a connection. */
  datatype Delivery = Delivery(userId: string, message: RoomEvent)

  /** What a broadcast of `m` to `members` delivers: one message to each member holding a
      connection, in membership order. */
  function Deliveries(members: seq<string>, connections: set<string>, m: RoomEvent): (r: seq<Delivery>)
    ensures |r| <= |members|
    ensures forall i :: 0 <= i < |r| ==> r[i].message == m && r[i].userId in members && r[i].userId in connections
    ensures forall u :: u in members && u in connections ==> Delivery(u, m) in r
  {
    if members == [] then []
    else
      var init, last := members[..|members| - 1], members[|members| - 1];
      assert members == init + [last];
      Deliveries(init, connections, m) + (if last in connections then [Delivery(last, m)] else [])
  }

  /** Each connected member of a room hears a broadcast exactly once. */
  lemma {:induction false} DeliveriesDistinct(members: seq<string>, connections: set<string>, m: RoomEvent)
    requires Distinct(members)
    ensures Distinct(Deliveries(members, connections, m))
  {
    if members != [] {
      var init, last := members[..|members| - 1], members[|members| - 1];
      assert members == init + [last];
      assert Distinct(init);
      DeliveriesDistinct(init, connections, m);
      var d := Deliveries(init, connections, m);
      forall i | 0 <= i < |d|
        ensures d[i].userId != last
      {
        var k :| 0 <= k < |init| && init[k] == d[i].userId;
      }
    }
  }

  /** `Set.add`: a member already present stays where it is; a new one goes last. */
  function Add(members: seq<string>, u: string): (r: seq<string>)
    ensures u in r
    ensures forall v :: v in r <==> v in members || v == u
  {
    if u in members then members else members + [u]
  }

  /** Adding twice is adding once. */
  lemma AddIdempotent(members: seq<string>, u: string)
    ensures Add(Add(members, u), u) == Add(members, u)
  {
  }

  lemma AddDistinct(members: seq<string>, u: string)
    requires Distinct(members)
    ensures Distinct(Add(members, u))
  {
  }

  /** `Set.delete`: the other members keep their order. */
  function Without(members: seq<string>, u: string): (r: seq<string>)
    ensures u !in r
    ensures forall v :: v in r <==> v in members && v != u
    ensures |r| <= |members|
  {
    if members == [] then []
    else if members[0] == u then Without(members[1..], u)
    else [members[0]] + Without(members[1..], u)
  }

  lemma {:induction false} WithoutDistinct(members: seq<string>, u: string)
    requires Distinct(members)
    ensures Distinct(Without(members, u))
  {
    if members != [] {
      assert Distinct(members[1..]);
      WithoutDistinct(members[1..], u);
      assert members[0] !in members[1..];
    }
  }

  /** A present member is the only thing removed: the room shrinks by exactly one. */
  lemma {:induction false} WithoutPresent(members: seq<string>, u: string)
    requires Distinct(members) && u in members
    ensures |Without(members, u)| == |members| - 1
  {
    if members[0] == u {
      assert u !in members[1..];
      WithoutAbsent(members[1..], u);
    } else {
      assert Distinct(members[1..]);
      WithoutPresent(members[1..], u);
    }
  }

  lemma {:induction false} WithoutAbsent(members: seq<string>, u: string)
    requires u !in members
    ensures Without(members, u) == members
  {
    if members != [] {
      WithoutAbsent(members[1..], u);
    }
  }

  /** The members of a room; an unknown room has none. */
  function MembersOf(rooms: map<string, seq<string>>, roomId: string): seq<string>
  {
    if roomId in rooms then rooms[roomId] else []
  }

  /** The rooms after `userId` joins `roomId`. */
  function Joined(rooms: map<string, seq<string>>, roomId: string, userId: string): (r: map<string, seq<string>>)
    ensures roomId in r && userId in r[roomId]
    ensures forall other :: other != roomId ==> MembersOf(r, other) == MembersOf(rooms, other)
  {
    rooms[roomId := Add(MembersOf(rooms, roomId), userId)]
  }

  /** Joining twice leaves a single membership: the rooms are those of joining once. */
  lemma JoinIdempotent(rooms: map<string, seq<string>>, roomId: string, userId: string)
    ensures Joined(Joined(rooms, roomId, userId), roomId, userId) == Joined(rooms, roomId, userId)
  {
    AddIdempotent(MembersOf(rooms, roomId), userId);
  }

  class MockWebSocketServer {
    /** The users with an entry in `connections`. */
    var connections: set<string>
    var rooms: map<string, seq<string>>

    /** Every room is a set. */
    ghost predicate Valid()
      reads this
    {
      forall r :: r in rooms ==> Distinct(rooms[r])
    }

    function Members(roomId: string): seq<string>
      reads this
    {
      MembersOf(rooms, roomId)
    }

    constructor ()
      ensures Valid() && connections == {} && rooms == map[]
    {
      connections := {};
      rooms := map[];
    }

    /** `start(port)`: registers the three simulated connections and sets the two
        simulated rooms, replacing any rooms of the same name. The 30-second participant
        update it also schedules is not part of this model. */
    method Start(port: int)
      requires Valid()
      modifies this
      ensures Valid()
      ensures connections == old(connections) + {"user-1", "user-2", "user-3"}
      ensures rooms == old(rooms)["room-1" := ["user-1", "user-2"]]["room-2" := ["user-2", "user-3"]]
    {
      connections := connections + {"user-1", "user-2", "user-3"};
      assert "user-1"[5] != "user-2"[5] && "user-2"[5] != "user-3"[5];
      rooms := rooms["room-1" := ["user-1", "user-2"]]["room-2" := ["user-2", "user-3"]];
    }

    /** `stop()`: forgets every connection and every room. */
    method Stop()
      modifies this
      ensures Valid() && connections == {} && rooms == map[]
    {
      connections := {};
      rooms := map[];
    }

    /** `sendToUser(userId, message)`: delivers only to a user with a connection. */
    method SendToUser(userId: string, m: RoomEvent) returns (d: seq<Delivery>)
      ensures d == if userId in connections then [Delivery(userId, m)] else []
    {
      if userId in connections {
        d := [Delivery(userId, m)];
      } else {
        d := [];
      }
    }

    /** `broadcast(roomId, message)`: `sendToUser` for every member of the room, in
        membership order; an unknown room gets nothing. */
    method Broadcast(roomId: string, m: RoomEvent) returns (out: seq<Delivery>)
      requires Valid()
      ensures out == Deliveries(Members(roomId), connections, m)
      ensures Distinct(out)
    {
      out := [];
      if roomId in rooms {
        var members := rooms[roomId];
        var i := 0;
        while i < |members|
          invariant 0 <= i <= |members|
          invariant out == Deliveries(members[..i], connections, m)
        {
          var d := SendToUser(members[i], m);
          assert members[..i + 1][..i] == members[..i];
          out := out + d;
          i := i + 1;
        }
        assert members[..i] == members;
      }
      DeliveriesDistinct(Members(roomId), connections, m);
    }

    /** `joinRoom(userId, roomId)`: creates the room when missing, adds the user and
        tells every member, the joiner included, that the user joined. No other room
        changes and nothing limits the room's size. */
    method JoinRoom(userId: string, roomId: string, now: int) returns (out: seq<Delivery>)
      requires Valid()
      modifies this`rooms
      ensures Valid()
      ensures rooms == Joined(old(rooms), roomId, userId)
      ensures userId in Members(roomId)
      ensures out == Deliveries(Members(roomId), connections, UserJoined(roomId, userId, now))
      ensures userId in connections ==> Delivery(userId, UserJoined(roomId, userId, now)) in out
      ensures Distinct(out)
    {
      var members: seq<string> := [];
      if roomId in rooms {
        members := rooms[roomId];
      }
      assert members == MembersOf(rooms, roomId);
      AddDistinct(members, userId);
      rooms := rooms[roomId := Add(members, userId)];
      out := Broadcast(roomId, UserJoined(roomId, userId, now));
    }

    /** `leaveRoom(userId, roomId)`: on a known room, removes the user and tells the
        remaining members; the leaver hears nothing. An unknown room is left alone and
        nobody is told. */
    method LeaveRoom(userId: string, roomId: string, now: int) returns (out: seq<Delivery>)
      requires Valid()
      modifies this`rooms
      ensures Valid()
      ensures roomId !in old(rooms) ==> rooms == old(rooms) && out == []
      ensures roomId in old(rooms) ==>
        rooms == old(rooms)[roomId := Without(old(rooms)[roomId], userId)]
        && out == Deliveries(rooms[roomId], connections, UserLeft(roomId, userId, now))
      ensures forall i :: 0 <= i < |out| ==> out[i].userId != userId
      ensures Distinct(out)
    {
      if roomId in rooms {
        WithoutDistinct(rooms[roomId], userId);
        rooms := rooms[roomId := Without(rooms[roomId], userId)];
        out := Broadcast(roomId, UserLeft(roomId, userId, now));
      } else {
        out := [];
      }
    }

    /** `sendRoomMessage(userId, roomId, message)`. */
    method SendRoomMessage(userId: string, roomId: string, text: string, now: int) returns (out: seq<Delivery>)
      requires Valid()
      ensures out == Deliveries(Members(roomId), connections, RoomMessage(roomId, userId, text, now))
      ensures Distinct(out)
    {
      out := Broadcast(roomId, RoomMessage(roomId, userId, text, now));
    }

    /** `sendCodeUpdate(userId, roomId, code, language)`. */
    method SendCodeUpdate(userId: string, roomId: string, code: string, language: string, now: int)
      returns (out: seq<Delivery>)
      requires Valid()
      ensures out == Deliveries(Members(roomId), connections, CodeUpdate(roomId, userId, code, language, now))
      ensures Distinct(out)
    {
      out := Broadcast(roomId, CodeUpdate(roomId, userId, code, language, now));
    }
  }
}
