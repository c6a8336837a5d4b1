/// The relay hub (VideoChat/Hubs/ChatHub.cs): a table from room id to the set
/// of member connections, and an outbox of the events put on the wire.
module Relay {
  import opened Protocol

  type Rooms = map<RoomId, set<ConnId>>

  /// The current members of group `r` (no entry means no members).
  function Members(rooms: Rooms, r: RoomId): set<ConnId>
  {
    if r in rooms then rooms[r] else {}
  }

  /// Groups are reclaimed once their last member leaves.
  ghost predicate NoEmptyGroups(rooms: Rooms)
  {
    forall r :: r in rooms ==> rooms[r] != {}
  }

  /// The group table after Groups.AddToGroupAsync(c, r).
  function AddToGroup(rooms: Rooms, r: RoomId, c: ConnId): (after: Rooms)
    ensures Members(after, r) == Members(rooms, r) + {c}
    ensures forall r' :: r' != r ==> Members(after, r') == Members(rooms, r')
    ensures NoEmptyGroups(rooms) ==> NoEmptyGroups(after)
    ensures c in Members(rooms, r) ==> after == rooms
  {
    var after := rooms[r := Members(rooms, r) + {c}];
    assert c in Members(rooms, r) ==> after == rooms by {
      if c in Members(rooms, r) {
        assert Members(rooms, r) + {c} == rooms[r];
        assert after.Keys == rooms.Keys;
      }
    }
    after
  }

  /// The group table after Groups.RemoveFromGroupAsync(c, r); removing a
  /// connection that is not a member leaves a table without empty groups
  /// as it was.
  function RemoveFromGroup(rooms: Rooms, r: RoomId, c: ConnId): (after: Rooms)
    ensures Members(after, r) == Members(rooms, r) - {c}
    ensures forall r' :: r' != r ==> Members(after, r') == Members(rooms, r')
    ensures NoEmptyGroups(rooms) ==> NoEmptyGroups(after)
    ensures NoEmptyGroups(rooms) && c !in Members(rooms, r) ==> after == rooms
  {
    var rest := Members(rooms, r) - {c};
    var after := if rest == {} then rooms - {r} else rooms[r := rest];
    assert NoEmptyGroups(rooms) && c !in Members(rooms, r) ==> after == rooms by {
      if NoEmptyGroups(rooms) && c !in Members(rooms, r) {
        assert rest == Members(rooms, r);
        assert after.Keys == rooms.Keys;
      }
    }
    assert forall r' :: r' != r ==> Members(after, r') == Members(rooms, r');
    after
  }

  /// A change to the group table, as the hub makes it.
  datatype GroupOp = Add(conn: ConnId, room: RoomId) | Remove(conn: ConnId, room: RoomId)

  function Apply(rooms: Rooms, op: GroupOp): Rooms
  {
    match op
    case Add(c, r) => AddToGroup(rooms, r, c)
    case Remove(c, r) => RemoveFromGroup(rooms, r, c)
  }

  /// The group table after the given changes, starting from no groups.
  function ApplyAll(ops: seq<GroupOp>): Rooms
  {
    if ops == [] then map[] else Apply(ApplyAll(ops[..|ops| - 1]), ops[|ops| - 1])
  }

  /// An independent account of membership: c is in room r exactly when the
  /// last change about c and r was an Add.
  function Standing(ops: seq<GroupOp>, r: RoomId, c: ConnId): bool
  {
    if ops == [] then false
    else
      var last := ops[|ops| - 1];
      if last.conn == c && last.room == r then last.Add?
      else Standing(ops[..|ops| - 1], r, c)
  }

  /// Replaying any history of joins and leaves yields a table without empty
  /// groups.
  lemma {:induction false} ApplyAllNoEmptyGroups(ops: seq<GroupOp>)
    ensures NoEmptyGroups(ApplyAll(ops))
  {
    if ops != [] {
      ApplyAllNoEmptyGroups(ops[..|ops| - 1]);
    }
  }

  /// The member set of a room is exactly the connections that joined it and
  /// have not left it since.
  lemma {:induction false} MembershipIsStanding(ops: seq<GroupOp>, r: RoomId, c: ConnId)
    ensures c in Members(ApplyAll(ops), r) <==> Standing(ops, r, c)
  {
    if ops != [] {
      MembershipIsStanding(ops[..|ops| - 1], r, c);
    }
  }

  /// `ds` puts `ev` on the wire exactly once to every connection in
  /// `audience` and to nobody else, in some order.
  ghost predicate IsFanOut(ds: seq<Delivery>, audience: set<ConnId>, ev: Event)
  {
    && (forall i :: 0 <= i < |ds| ==> ds[i].to in audience && ds[i].event == ev)
    && (forall i, j :: 0 <= i < j < |ds| ==> ds[i].to != ds[j].to)
    && (forall c :: c in audience ==> exists i :: 0 <= i < |ds| && ds[i].to == c)
  }

  /// `after` is `before` followed by a fan-out of `ev` to `audience`.
  ghost predicate AppendsFanOut(before: seq<Delivery>, after: seq<Delivery>, audience: set<ConnId>, ev: Event)
  {
    |before| <= |after| && after[..|before|] == before && IsFanOut(after[|before|..], audience, ev)
  }

  /// One group send (Clients.Group(r).SendAsync, Clients.All.SendAsync):
  /// one delivery per member of the audience, in an unspecified order.
  method FanOut(audience: set<ConnId>, ev: Event) returns (ds: seq<Delivery>)
    ensures IsFanOut(ds, audience, ev)
  {
    ds := [];
    var rest := audience;
    while rest != {}
      invariant rest <= audience
      invariant forall i :: 0 <= i < |ds| ==> ds[i].to in audience - rest && ds[i].event == ev
      invariant forall i, j :: 0 <= i < j < |ds| ==> ds[i].to != ds[j].to
      invariant forall c :: c in audience - rest ==> exists i :: 0 <= i < |ds| && ds[i].to == c
      decreases rest
    {
      var c :| c in rest;
      var before, restBefore := ds, rest;
      ds := ds + [Delivery(c, ev)];
      rest := rest - {c};
      forall x | x in audience - rest
        ensures exists i :: 0 <= i < |ds| && ds[i].to == x
      {
        if x == c {
          assert ds[|ds| - 1].to == x;
        } else {
          assert x in audience - restBefore;
          var i :| 0 <= i < |before| && before[i].to == x;
          assert ds[i].to == x;
        }
      }
    }
    assert audience - rest == audience;
  }

  /// How many deliveries of `ds` go to `c`.
  function CountTo(ds: seq<Delivery>, c: ConnId): nat
  {
    if ds == [] then 0 else (if ds[0].to == c then 1 else 0) + CountTo(ds[1..], c)
  }

  lemma FanOutTail(ds: seq<Delivery>, audience: set<ConnId>, ev: Event)
    requires ds != [] && IsFanOut(ds, audience, ev)
    ensures ds[0].to in audience && IsFanOut(ds[1..], audience - {ds[0].to}, ev)
  {
    var tail := ds[1..];
    forall c | c in audience - {ds[0].to}
      ensures exists i :: 0 <= i < |tail| && tail[i].to == c
    {
      var i :| 0 <= i < |ds| && ds[i].to == c;
      assert tail[i - 1].to == c;
    }
  }

  /// A fan-out reaches every member of the audience exactly once and nobody
  /// outside it.
  lemma {:induction false} FanOutDeliversOnce(ds: seq<Delivery>, audience: set<ConnId>, ev: Event, c: ConnId)
    requires IsFanOut(ds, audience, ev)
    ensures CountTo(ds, c) == if c in audience then 1 else 0
  {
    if ds == [] {
      assert audience == {};
    } else {
      FanOutTail(ds, audience, ev);
      FanOutDeliversOnce(ds[1..], audience - {ds[0].to}, ev, c);
    }
  }

  /// A fan-out has one delivery per member; in particular a send to a room
  /// with no members puts nothing on the wire.
  lemma {:induction false} FanOutSize(ds: seq<Delivery>, audience: set<ConnId>, ev: Event)
    requires IsFanOut(ds, audience, ev)
    ensures |ds| == |audience|
  {
    if ds == [] {
      assert audience == {};
    } else {
      FanOutTail(ds, audience, ev);
      FanOutSize(ds[1..], audience - {ds[0].to}, ev);
    }
  }

  /// The UserJoined broadcast reaches the joiner once and every earlier
  /// member once.
  lemma JoinNotifiesEveryMemberOnce(rooms: Rooms, r: RoomId, c: ConnId, name: string, ds: seq<Delivery>)
    requires IsFanOut(ds, Members(AddToGroup(rooms, r, c), r), UserJoined(name))
    ensures CountTo(ds, c) == 1
    ensures forall m :: m in Members(rooms, r) ==> CountTo(ds, m) == 1
  {
    FanOutDeliversOnce(ds, Members(AddToGroup(rooms, r, c), r), UserJoined(name), c);
    forall m | m in Members(rooms, r) ensures CountTo(ds, m) == 1 {
      FanOutDeliversOnce(ds, Members(AddToGroup(rooms, r, c), r), UserJoined(name), m);
    }
  }

  /// The UserLeft broadcast never reaches the leaver and reaches every other
  /// member once.
  lemma LeaveNotifiesOthersOnce(rooms: Rooms, r: RoomId, c: ConnId, name: string, ds: seq<Delivery>)
    requires IsFanOut(ds, Members(RemoveFromGroup(rooms, r, c), r), UserLeft(name))
    ensures CountTo(ds, c) == 0
    ensures forall m :: m in Members(rooms, r) && m != c ==> CountTo(ds, m) == 1
  {
    FanOutDeliversOnce(ds, Members(RemoveFromGroup(rooms, r, c), r), UserLeft(name), c);
    forall m | m in Members(rooms, r) && m != c ensures CountTo(ds, m) == 1 {
      FanOutDeliversOnce(ds, Members(RemoveFromGroup(rooms, r, c), r), UserLeft(name), m);
    }
  }

  /// The hub. Each method takes the calling connection's id (`caller`, the
  /// hub's Context.ConnectionId) and runs to completion before the next.
  class ChatHub {
    /// The group table kept by Groups.
    var rooms: Rooms
    /// The live connections addressed by Clients.All.
    var connections: set<ConnId>
    /// Every delivery put on the wire so far, in order.
    var outbox: seq<Delivery>
    /// Every change made to the group table so far.
    ghost var groupOps: seq<GroupOp>

    ghost predicate Valid()
      reads this
    {
      rooms == ApplyAll(groupOps) && NoEmptyGroups(rooms)
    }

    constructor ()
      ensures Valid()
      ensures rooms == map[] && connections == {} && outbox == [] && groupOps == []
    {
      rooms, connections, outbox := map[], {}, [];
      groupOps := [];
    }

    /// A transport connection is established (the framework's part of the
    /// hub lifecycle; ChatHub does not override OnConnectedAsync).
    method Connect(caller: ConnId)
      requires Valid()
      modifies this
      ensures Valid()
      ensures connections == old(connections) + {caller}
      ensures rooms == old(rooms) && outbox == old(outbox) && groupOps == old(groupOps)
    {
      connections := connections + {caller};
    }

    /// Puts `ev` on the wire to every member of `audience`.
    method Send(audience: set<ConnId>, ev: Event)
      modifies this`outbox
      ensures AppendsFanOut(old(outbox), outbox, audience, ev)
    {
      var ds := FanOut(audience, ev);
      outbox := outbox + ds;
      assert outbox[|old(outbox)|..] == ds;
    }

    /// SendMessage: "ReceiveMessage"(user, message) to every connection,
    /// whatever room it is in.
    method SendMessage(caller: ConnId, user: string, message: string)
      requires Valid()
      modifies this
      ensures Valid()
      ensures rooms == old(rooms) && connections == old(connections) && groupOps == old(groupOps)
      ensures AppendsFanOut(old(outbox), outbox, connections, ReceiveMessage(user, message))
    {
      Send(connections, ReceiveMessage(user, message));
    }

    /// JoinRoom: the caller is added to the group, then "UserJoined" goes to
    /// the whole group, the joiner included, even when it was already in it.
    method JoinRoom(caller: ConnId, roomId: RoomId, userName: string)
      requires Valid()
      modifies this
      ensures Valid()
      ensures rooms == AddToGroup(old(rooms), roomId, caller)
      ensures groupOps == old(groupOps) + [Add(caller, roomId)]
      ensures connections == old(connections)
      ensures AppendsFanOut(old(outbox), outbox, Members(rooms, roomId), UserJoined(userName))
    {
      rooms := AddToGroup(rooms, roomId, caller);
      groupOps := groupOps + [Add(caller, roomId)];
      assert groupOps[..|groupOps| - 1] == old(groupOps);
      Send(Members(rooms, roomId), UserJoined(userName));
    }

    /// LeaveRoom: the caller is removed from the group, then "UserLeft" goes
    /// to the members that remain, even when the caller was not a member.
    method LeaveRoom(caller: ConnId, roomId: RoomId, userName: string)
      requires Valid()
      modifies this
      ensures Valid()
      ensures rooms == RemoveFromGroup(old(rooms), roomId, caller)
      ensures groupOps == old(groupOps) + [Remove(caller, roomId)]
      ensures connections == old(connections)
      ensures AppendsFanOut(old(outbox), outbox, Members(rooms, roomId), UserLeft(userName))
    {
      rooms := RemoveFromGroup(rooms, roomId, caller);
      groupOps := groupOps + [Remove(caller, roomId)];
      assert groupOps[..|groupOps| - 1] == old(groupOps);
      Send(Members(rooms, roomId), UserLeft(userName));
    }

    /// SendMessageToRoom: "ReceiveMessage"(user, message) to every member of
    /// the room, the sender included; the sender need not be a member.
    method SendMessageToRoom(caller: ConnId, roomId: RoomId, user: string, message: string)
      requires Valid()
      modifies this
      ensures Valid()
      ensures rooms == old(rooms) && connections == old(connections) && groupOps == old(groupOps)
      ensures AppendsFanOut(old(outbox), outbox, Members(rooms, roomId), ReceiveMessage(user, message))
    {
      Send(Members(rooms, roomId), ReceiveMessage(user, message));
    }

    /// The three signalling sends: the payload, untouched, and the caller's
    /// connection id go to every member of the room, the caller included.
    method SendSignal(caller: ConnId, kind: SignalKind, roomId: RoomId, payload: Payload)
      requires Valid()
      modifies this
      ensures Valid()
      ensures rooms == old(rooms) && connections == old(connections) && groupOps == old(groupOps)
      ensures AppendsFanOut(old(outbox), outbox, Members(rooms, roomId), ReceiveSignal(kind, payload, caller))
    {
      Send(Members(rooms, roomId), ReceiveSignal(kind, payload, caller));
    }

    method SendOffer(caller: ConnId, roomId: RoomId, offer: Payload)
      requires Valid()
      modifies this
      ensures Valid()
      ensures rooms == old(rooms) && connections == old(connections) && groupOps == old(groupOps)
      ensures AppendsFanOut(old(outbox), outbox, Members(rooms, roomId), ReceiveSignal(Offer, offer, caller))
    {
      SendSignal(caller, Offer, roomId, offer);
    }

    method SendAnswer(caller: ConnId, roomId: RoomId, answer: Payload)
      requires Valid()
      modifies this
      ensures Valid()
      ensures rooms == old(rooms) && connections == old(connections) && groupOps == old(groupOps)
      ensures AppendsFanOut(old(outbox), outbox, Members(rooms, roomId), ReceiveSignal(Answer, answer, caller))
    {
      SendSignal(caller, Answer, roomId, answer);
    }

    method SendIceCandidate(caller: ConnId, roomId: RoomId, candidate: Payload)
      requires Valid()
      modifies this
      ensures Valid()
      ensures rooms == old(rooms) && connections == old(connections) && groupOps == old(groupOps)
      ensures AppendsFanOut(old(outbox), outbox, Members(rooms, roomId), ReceiveSignal(IceCandidate, candidate, caller))
    {
      SendSignal(caller, IceCandidate, roomId, candidate);
    }

    /// OnDisconnectedAsync only defers to the base hub: nothing is sent and
    /// the group table is not touched; the connection stops being live.
    method OnDisconnectedAsync(caller: ConnId, exception: Option<string>)
      requires Valid()
      modifies this
      ensures Valid()
      ensures rooms == old(rooms) && outbox == old(outbox) && groupOps == old(groupOps)
      ensures connections == old(connections) - {caller}
    {
      connections := connections - {caller};
    }

    /// Dispatches one client invocation to the hub method it names.
    method Handle(caller: ConnId, req: Request)
      requires Valid()
      modifies this
      ensures Valid()
      ensures connections == old(connections)
      ensures groupOps == old(groupOps) + OpsOf(caller, req)
      ensures rooms == Effect(old(rooms), caller, req)
      ensures AppendsFanOut(old(outbox), outbox, Audience(old(rooms), connections, caller, req), Outgoing(caller, req))
    {
      match req
      case SendMessage(u, m) => SendMessage(caller, u, m);
      case JoinRoom(r, n) => JoinRoom(caller, r, n);
      case LeaveRoom(r, n) => LeaveRoom(caller, r, n);
      case SendMessageToRoom(r, u, m) => SendMessageToRoom(caller, r, u, m);
      case SendSignal(k, r, p) => SendSignal(caller, k, r, p);
    }
  }

  /// The changes `req` from `caller` makes to the group table.
  function OpsOf(caller: ConnId, req: Request): seq<GroupOp>
  {
    match req
    case JoinRoom(r, _) => [Add(caller, r)]
    case LeaveRoom(r, _) => [Remove(caller, r)]
    case _ => []
  }

  /// The group table after `req` from `caller`.
  function Effect(rooms: Rooms, caller: ConnId, req: Request): Rooms
  {
    match req
    case JoinRoom(r, _) => AddToGroup(rooms, r, caller)
    case LeaveRoom(r, _) => RemoveFromGroup(rooms, r, caller)
    case _ => rooms
  }

  /// Who receives the event produced by `req` from `caller`, given the group
  /// table before the call.
  function Audience(rooms: Rooms, connections: set<ConnId>, caller: ConnId, req: Request): set<ConnId>
  {
    match req
    case SendMessage(_, _) => connections
    case JoinRoom(r, _) => Members(AddToGroup(rooms, r, caller), r)
    case LeaveRoom(r, _) => Members(RemoveFromGroup(rooms, r, caller), r)
    case SendMessageToRoom(r, _, _) => Members(rooms, r)
    case SendSignal(_, r, _) => Members(rooms, r)
  }

  /// The event that `req` from `caller` puts on the wire.
  function Outgoing(caller: ConnId, req: Request): Event
  {
    match req
    case SendMessage(u, m) => ReceiveMessage(u, m)
    case JoinRoom(_, n) => UserJoined(n)
    case LeaveRoom(_, n) => UserLeft(n)
    case SendMessageToRoom(_, u, m) => ReceiveMessage(u, m)
    case SendSignal(k, _, p) => ReceiveSignal(k, p, caller)
  }
}
