/// The vocabulary shared by the relay hub and the browser client: the
/// identifiers, the messages a client invokes on the hub, and the events the
/// hub sends back to clients.
module Protocol {

  datatype Option<T> = None | Some(value: T)

  /// A transport connection id (SignalR's Context.ConnectionId).
  type ConnId = string

  /// A room id, chosen by the client; the hub uses it as a group name.
  type RoomId = string

  /// A serialized session description or ICE candidate. Neither the hub nor
  /// the signalling code looks inside it.
  type Payload = string

  /// The three kinds of signalling message.
  datatype SignalKind = Offer | Answer | IceCandidate

  /// The hub methods a client can invoke, with their arguments.
  /// `SendSignal(Offer, r, p)` is the wire call "SendOffer"(r, p), and
  /// likewise for "SendAnswer" and "SendIceCandidate".
  datatype Request =
    | SendMessage(user: string, message: string)
    | JoinRoom(roomId: RoomId, userName: string)
    | LeaveRoom(roomId: RoomId, userName: string)
    | SendMessageToRoom(roomId: RoomId, user: string, message: string)
    | SendSignal(kind: SignalKind, roomId: RoomId, payload: Payload)

  /// The events the hub sends to clients. `ReceiveSignal(Offer, p, c)` is
  /// the wire event "ReceiveOffer"(p, c), and likewise for "ReceiveAnswer" and
  /// "ReceiveIceCandidate"; `fromConnectionId` is the sender's connection id.
  datatype Event =
    | UserJoined(userName: string)
    | UserLeft(userName: string)
    | ReceiveMessage(user: string, message: string)
    | ReceiveSignal(kind: SignalKind, payload: Payload, fromConnectionId: ConnId)

  /// One event put on the wire to one connection.
  datatype Delivery = Delivery(to: ConnId, event: Event)
}
