/// The hub's fan-out composed with the client's echo filter. The hub sends a
/// room's signalling and chat to every member, the sender included; each
/// client drops signalling events tagged with its own connection id.
module EndToEnd {
  import opened Protocol
  import Relay
  import Client

  /// The recipients of `ds` whose client acts on what it receives, each
  /// client knowing its own connection id.
  ghost function Acting(ds: seq<Delivery>): set<ConnId>
  {
    set i | 0 <= i < |ds| && !Client.IsOwnEcho(Some(ds[i].to), ds[i].event) :: ds[i].to
  }

  /// A signalling message relayed to a room is acted on by every member and
  /// by nobody else, except its sender, who never processes it.
  lemma SenderNeverProcessesOwnSignal(ds: seq<Delivery>, members: set<ConnId>, kind: SignalKind, payload: Payload, sender: ConnId)
    requires Relay.IsFanOut(ds, members, ReceiveSignal(kind, payload, sender))
    ensures Acting(ds) == members - {sender}
  {
    forall c | c in members - {sender}
      ensures c in Acting(ds)
    {
      var i :| 0 <= i < |ds| && ds[i].to == c;
    }
  }

  /// Chat has no such filter: every member acts on a chat message, the
  /// sender included when it is a member.
  lemma ChatEchoesToSender(ds: seq<Delivery>, members: set<ConnId>, user: string, message: string)
    requires Relay.IsFanOut(ds, members, ReceiveMessage(user, message))
    ensures Acting(ds) == members
  {
    forall c | c in members
      ensures c in Acting(ds)
    {
      var i :| 0 <= i < |ds| && ds[i].to == c;
    }
  }
}
