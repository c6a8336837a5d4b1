/// The browser-side controller (wwwroot/js/videochat.js, class VideoChat):
/// its fields, the handlers for hub events, and the user actions, with every
/// call into SignalR or WebRTC recorded in an `invoked` log.
///
/// Calls into the browser are foreign: their results are parameters. An
/// awaited call may reject; `failsAt` names the first awaited call of a
/// method (counting from 0, in program order) that rejects, and any larger
/// value means none does. The rejecting call is still logged, the calls
/// after it are not made, and the surrounding try/catch swallows the error.
module Client {
  import opened Protocol
  import JsText

  /// The STUN servers of `rtcConfiguration`; no TURN relay is configured.
  const ICE_SERVERS: seq<string> := ["stun:stun.l.google.com:19302", "stun:stun1.l.google.com:19302"]

  type TrackId = string
  type StreamId = string

  datatype Kind = Audio | Video

  /// A MediaStreamTrack: `enabled` is its mute flag, `live` becomes false
  /// once stop() is called on it.
  datatype Track = Track(id: TrackId, kind: Kind, enabled: bool, live: bool)

  /// A MediaStream and its tracks, in getTracks() order.
  datatype Stream = Stream(id: StreamId, tracks: seq<Track>)

  /// The identity of a track as an RTCRtpSender holds it.
  datatype TrackRef = TrackRef(id: TrackId, kind: Kind)

  function RefOf(t: Track): TrackRef
  {
    TrackRef(t.id, t.kind)
  }

  datatype Sender = Sender(track: Option<TrackRef>)

  /// RTCPeerConnection.connectionState.
  datatype ConnectionState = New | Connecting | Connected | Disconnected | Failed | Closed

  /// What the model keeps of an RTCPeerConnection.
  datatype PeerConnection = PeerConnection(
    connectionState: ConnectionState,
    senders: seq<Sender>,
    localDescription: Option<Payload>,
    remoteDescription: Option<Payload>,
    remoteCandidates: seq<Payload>)

  /// A line added to the chat panel, as a system notice or as a message.
  datatype ChatEntry = SystemLine(text: string) | MessageLine(text: string)

  /// A call into SignalR (`Invoke`, `StartConnection`, `StopConnection`) or
  /// into WebRTC and the media devices.
  datatype Call =
    | Invoke(request: Request)
    | StartConnection
    | StopConnection
    | GetUserMedia
    | GetDisplayMedia
    | NewPeerConnection(iceServers: seq<string>)
    | AddTrack(track: TrackId, stream: StreamId)
    | CreateOffer
    | CreateAnswer
    | SetLocalDescription(description: Payload)
    | SetRemoteDescription(description: Payload)
    | AddIceCandidate(candidate: Payload)
    | ReplaceTrack(sender: nat, withTrack: Option<TrackId>)
    | ClosePeerConnection
    | StopTrack(stopped: TrackId)

  /// All fields of a VideoChat object, as one value.
  datatype ClientState = ClientState(
    userName: string,
    localStream: Option<Stream>,
    remoteStream: Option<StreamId>,
    peerConnection: Option<PeerConnection>,
    hasConnection: bool,
    connectionId: Option<ConnId>,
    isVideoEnabled: bool,
    isAudioEnabled: bool,
    isChatOpen: bool,
    isScreenSharing: bool,
    messageInput: string,
    chatLog: seq<ChatEntry>,
    invoked: seq<Call>)

  /// A signalling event this client sent itself, which its handlers drop.
  /// Before the connection has started its id is null, and nothing matches.
  predicate IsOwnEcho(connectionId: Option<ConnId>, ev: Event): (r: bool)
    ensures r ==> ev.ReceiveSignal? && connectionId.Some?
    ensures ev.ReceiveSignal? && connectionId.Some? ==> (r <==> connectionId.value == ev.fromConnectionId)
  {
    ev.ReceiveSignal? && connectionId == Some(ev.fromConnectionId)
  }

  /// The index of the first track of kind `k` (getVideoTracks()[0],
  /// getAudioTracks()[0]).
  function FirstOfKind(tracks: seq<Track>, k: Kind): (r: Option<nat>)
    ensures r.None? <==> forall i :: 0 <= i < |tracks| ==> tracks[i].kind != k
    ensures r.Some? ==> r.value < |tracks| && tracks[r.value].kind == k
    ensures r.Some? ==> forall j :: 0 <= j < r.value ==> tracks[j].kind != k
  {
    if tracks == [] then None
    else if tracks[0].kind == k then Some(0)
    else match FirstOfKind(tracks[1..], k)
      case None => None
      case Some(i) => Some(i + 1)
  }

  /// Which track comes first of each kind depends only on the kinds.
  lemma {:induction false} FirstOfKindSameKinds(a: seq<Track>, b: seq<Track>, k: Kind)
    requires |a| == |b| && forall i :: 0 <= i < |a| ==> a[i].kind == b[i].kind
    ensures FirstOfKind(a, k) == FirstOfKind(b, k)
  {
    if a != [] {
      FirstOfKindSameKinds(a[1..], b[1..], k);
    }
  }

  /// The index of the first sender that carries a video track
  /// (getSenders().find(s => s.track && s.track.kind === 'video')).
  function FirstVideoSender(senders: seq<Sender>): (r: Option<nat>)
    ensures r.None? <==> forall i :: 0 <= i < |senders| ==> senders[i].track.None? || senders[i].track.value.kind != Video
    ensures r.Some? ==> r.value < |senders| && senders[r.value].track.Some? && senders[r.value].track.value.kind == Video
    ensures r.Some? ==> forall j :: 0 <= j < r.value ==> senders[j].track.None? || senders[j].track.value.kind != Video
  {
    if senders == [] then None
    else if senders[0].track.Some? && senders[0].track.value.kind == Video then Some(0)
    else match FirstVideoSender(senders[1..])
      case None => None
      case Some(i) => Some(i + 1)
  }

  /// The `enabled` flag of the stream's first track of kind `k`, if any.
  function Flag(ls: Option<Stream>, k: Kind): Option<bool>
  {
    match ls
    case None => None
    case Some(s) =>
      match FirstOfKind(s.tracks, k)
      case None => None
      case Some(i) => Some(s.tracks[i].enabled)
  }

  /// The stream with its first track of kind `k` muted or unmuted.
  function FlipFirst(s: Stream, k: Kind): (r: Stream)
    ensures r.id == s.id && |r.tracks| == |s.tracks|
    ensures forall i :: 0 <= i < |s.tracks| ==> RefOf(r.tracks[i]) == RefOf(s.tracks[i]) && r.tracks[i].live == s.tracks[i].live
  {
    match FirstOfKind(s.tracks, k)
    case None => s
    case Some(i) => s.(tracks := s.tracks[i := s.tracks[i].(enabled := !s.tracks[i].enabled)])
  }

  /// The field that mirrors the flag of the first track of kind `k`.
  function Mirror(st: ClientState, k: Kind): bool
  {
    if k == Video then st.isVideoEnabled else st.isAudioEnabled
  }

  /// The state after toggleVideo (k = Video) or toggleAudio (k = Audio):
  /// without a stream or a track of that kind nothing changes; otherwise the
  /// track's flag is flipped and the mirroring field takes its new value.
  function ToggleStep(st: ClientState, k: Kind): (r: ClientState)
    ensures Flag(st.localStream, k).None? ==> r == st
    ensures Flag(st.localStream, k).Some? ==>
      && Flag(r.localStream, k) == Some(!Flag(st.localStream, k).value)
      && Mirror(r, k) == Flag(r.localStream, k).value
      && Mirror(r, if k == Video then Audio else Video) == Mirror(st, if k == Video then Audio else Video)
      && r.localStream.Some? && r.localStream.value == FlipFirst(st.localStream.value, k)
      && r == st.(localStream := r.localStream, isVideoEnabled := r.isVideoEnabled, isAudioEnabled := r.isAudioEnabled)
  {
    match Flag(st.localStream, k)
    case None => st
    case Some(b) =>
      var s := st.localStream.value;
      var flipped := FlipFirst(s, k);
      FirstOfKindSameKinds(flipped.tracks, s.tracks, k);
      if k == Video then st.(localStream := Some(flipped), isVideoEnabled := !b)
      else st.(localStream := Some(flipped), isAudioEnabled := !b)
  }

  /// Toggling twice restores the stream, and restores the whole state when
  /// the mirroring field agreed with the track beforehand.
  lemma ToggleTwice(st: ClientState, k: Kind)
    ensures ToggleStep(ToggleStep(st, k), k).localStream == st.localStream
    ensures (Flag(st.localStream, k).Some? ==> Mirror(st, k) == Flag(st.localStream, k).value) ==>
      ToggleStep(ToggleStep(st, k), k) == st
  {
    if Flag(st.localStream, k).Some? {
      var once := ToggleStep(st, k);
      FlipFirstTwice(st.localStream.value, k);
      assert ToggleStep(once, k).localStream == st.localStream;
    }
  }

  /// Flipping the same track twice gives the stream back.
  lemma FlipFirstTwice(s: Stream, k: Kind)
    ensures FlipFirst(FlipFirst(s, k), k) == s
  {
    var once := FlipFirst(s, k);
    FirstOfKindSameKinds(once.tracks, s.tracks, k);
    match FirstOfKind(s.tracks, k)
    case None =>
    case Some(i) =>
      assert FlipFirst(once, k).tracks == s.tracks;
  }

  /// The state after toggleChat.
  function ToggleChatStep(st: ClientState): (r: ClientState)
    ensures r.isChatOpen != st.isChatOpen
    ensures r.(isChatOpen := st.isChatOpen) == st
  {
    st.(isChatOpen := !st.isChatOpen)
  }

  /// Opening and closing the chat panel gives the state back.
  lemma ToggleChatTwice(st: ClientState)
    ensures ToggleChatStep(ToggleChatStep(st)) == st
  {
  }

  /// The calls createOffer makes when the call numbered `failsAt` is the
  /// first to reject: createOffer, setLocalDescription, "SendOffer".
  function OfferCalls(roomId: RoomId, offer: Payload, failsAt: nat): seq<Call>
  {
    [CreateOffer]
      + (if failsAt >= 1 then [SetLocalDescription(offer)] else [])
      + (if failsAt >= 2 then [Invoke(SendSignal(Offer, roomId, offer))] else [])
  }

  /// The calls handleReceiveOffer makes on its peer connection when the
  /// call numbered `failsAt` is the first to reject: setRemoteDescription,
  /// createAnswer, setLocalDescription, "SendAnswer".
  function AnswerCalls(roomId: RoomId, offer: Payload, answer: Payload, failsAt: nat): seq<Call>
  {
    [SetRemoteDescription(offer)]
      + (if failsAt >= 1 then [CreateAnswer] else [])
      + (if failsAt >= 2 then [SetLocalDescription(answer)] else [])
      + (if failsAt >= 3 then [Invoke(SendSignal(Answer, roomId, answer))] else [])
  }

  function TracksOf(ls: Option<Stream>): seq<Track>
  {
    if ls.Some? then ls.value.tracks else []
  }

  /// One sender per track, in the same order.
  function SendersFor(tracks: seq<Track>): (r: seq<Sender>)
    ensures |r| == |tracks|
    ensures forall i :: 0 <= i < |tracks| ==> r[i].track == Some(RefOf(tracks[i]))
  {
    seq(|tracks|, i requires 0 <= i < |tracks| => Sender(Some(RefOf(tracks[i]))))
  }

  /// The addTrack calls that add `tracks` of stream `sid`, in order.
  function AddTrackCalls(tracks: seq<Track>, sid: StreamId): (r: seq<Call>)
    ensures |r| == |tracks|
    ensures forall i :: 0 <= i < |tracks| ==> r[i] == AddTrack(tracks[i].id, sid)
  {
    seq(|tracks|, i requires 0 <= i < |tracks| => AddTrack(tracks[i].id, sid))
  }

  /// A new peer connection carrying the tracks of `ls`, if any.
  function InitialPeer(ls: Option<Stream>): PeerConnection
  {
    PeerConnection(New, SendersFor(TracksOf(ls)), None, None, [])
  }

  /// The calls initializePeerConnection makes.
  function InitCalls(ls: Option<Stream>): seq<Call>
  {
    [NewPeerConnection(ICE_SERVERS)] + (if ls.Some? then AddTrackCalls(ls.value.tracks, ls.value.id) else [])
  }

  /// The peer connection is created on a stream's tracks or, without a
  /// stream, on none.
  lemma InitialPeerCarriesLocalTracks(ls: Option<Stream>)
    ensures InitialPeer(ls).connectionState == New
    ensures ls.None? ==> InitialPeer(ls).senders == [] && InitCalls(ls) == [NewPeerConnection(ICE_SERVERS)]
    ensures ls.Some? ==> (|InitialPeer(ls).senders| == |ls.value.tracks| &&
      forall i :: 0 <= i < |ls.value.tracks| ==> InitialPeer(ls).senders[i].track == Some(RefOf(ls.value.tracks[i])))
  {
  }

  /// The peer connection after replacing the outgoing video track by the
  /// first video track of `media`; unchanged when no sender carries video.
  function ReplacedVideo(pc: PeerConnection, media: Stream): PeerConnection
  {
    match FirstVideoSender(pc.senders)
    case None => pc
    case Some(j) =>
      var track := match FirstOfKind(media.tracks, Video)
        case None => None
        case Some(i) => Some(RefOf(media.tracks[i]));
      pc.(senders := pc.senders[j := Sender(track)])
  }

  /// The replaceTrack call that ReplacedVideo makes, if any.
  function ReplaceCalls(pc: PeerConnection, media: Stream): seq<Call>
  {
    match FirstVideoSender(pc.senders)
    case None => []
    case Some(j) =>
      [ReplaceTrack(j, match FirstOfKind(media.tracks, Video)
        case None => None
        case Some(i) => Some(media.tracks[i].id))]
  }

  /// A stream whose tracks have all been stopped.
  function Stopped(s: Stream): (r: Stream)
    ensures r.id == s.id && |r.tracks| == |s.tracks|
    ensures forall i :: 0 <= i < |s.tracks| ==> r.tracks[i] == s.tracks[i].(live := false)
  {
    s.(tracks := seq(|s.tracks|, i requires 0 <= i < |s.tracks| => s.tracks[i].(live := false)))
  }

  function StopCalls(tracks: seq<Track>): (r: seq<Call>)
    ensures |r| == |tracks|
    ensures forall i :: 0 <= i < |tracks| ==> r[i] == StopTrack(tracks[i].id)
  {
    seq(|tracks|, i requires 0 <= i < |tracks| => StopTrack(tracks[i].id))
  }

  /// The state after cleanup: every local track stopped, in order, then the
  /// peer connection closed and the hub connection stopped.
  function CleanedUp(st: ClientState): ClientState
  {
    st.(
      localStream := if st.localStream.Some? then Some(Stopped(st.localStream.value)) else None,
      peerConnection := if st.peerConnection.Some? then Some(st.peerConnection.value.(connectionState := Closed)) else None,
      invoked := st.invoked + (StopCalls(TracksOf(st.localStream))
        + (if st.peerConnection.Some? then [ClosePeerConnection] else [])
        + (if st.hasConnection then [StopConnection] else [])))
  }

  /// After cleanup no local track is live and the peer connection is
  /// closed; the calls made so far are kept, the hub connection is stopped
  /// last, and no other field changes.
  lemma CleanupReleasesEverything(st: ClientState)
    ensures var r := CleanedUp(st);
      && (r.localStream.Some? <==> st.localStream.Some?)
      && (r.localStream.Some? ==> forall i :: 0 <= i < |r.localStream.value.tracks| ==> !r.localStream.value.tracks[i].live)
      && (r.peerConnection.Some? <==> st.peerConnection.Some?)
      && (r.peerConnection.Some? ==> r.peerConnection.value == st.peerConnection.value.(connectionState := Closed))
      && |st.invoked| <= |r.invoked| && r.invoked[..|st.invoked|] == st.invoked
      && (st.hasConnection ==> |r.invoked| > 0 && r.invoked[|r.invoked| - 1] == StopConnection)
      && r == st.(localStream := r.localStream, peerConnection := r.peerConnection, invoked := r.invoked)
  {
    var r := CleanedUp(st);
    assert r.invoked[..|st.invoked|] == st.invoked;
  }

  /// The state after stopScreenShare, where getUserMedia yields `camera`
  /// (none when refused) and the replaceTrack call rejects when
  /// `replaceFails`: only when the camera is granted, a peer connection
  /// exists and the replacement goes through does sharing stop, with the
  /// camera stream as the local stream and its video track on the outgoing
  /// video sender.
  function StopShareStep(st: ClientState, camera: Option<Stream>, replaceFails: bool): (r: ClientState)
    ensures
      var stopped := camera.Some? && st.peerConnection.Some? && (FirstVideoSender(st.peerConnection.value.senders).None? || !replaceFails);
      && (stopped ==> !r.isScreenSharing && r.localStream == camera && r.peerConnection == Some(ReplacedVideo(st.peerConnection.value, camera.value)))
      && (!stopped ==> r.isScreenSharing == st.isScreenSharing && r.localStream == st.localStream && r.peerConnection == st.peerConnection)
    ensures r.invoked == st.invoked + [GetUserMedia] +
      (if camera.Some? && st.peerConnection.Some? then ReplaceCalls(st.peerConnection.value, camera.value) else [])
    ensures r == st.(isScreenSharing := r.isScreenSharing, localStream := r.localStream, peerConnection := r.peerConnection, invoked := r.invoked)
  {
    var stopped := camera.Some? && st.peerConnection.Some? && (FirstVideoSender(st.peerConnection.value.senders).None? || !replaceFails);
    st.(
      isScreenSharing := if stopped then false else st.isScreenSharing,
      localStream := if stopped then camera else st.localStream,
      peerConnection := if stopped then Some(ReplacedVideo(st.peerConnection.value, camera.value)) else st.peerConnection,
      invoked := st.invoked + [GetUserMedia] +
        (if camera.Some? && st.peerConnection.Some? then ReplaceCalls(st.peerConnection.value, camera.value) else []))
  }

  /// The forEach of initializePeerConnection: one addTrack per track of
  /// `stream`, in order, each giving a sender for that track.
  method AddTracks(stream: Stream) returns (senders: seq<Sender>, calls: seq<Call>)
    ensures senders == SendersFor(stream.tracks)
    ensures calls == AddTrackCalls(stream.tracks, stream.id)
  {
    senders, calls := [], [];
    for i := 0 to |stream.tracks|
      invariant |senders| == i && |calls| == i
      invariant forall j :: 0 <= j < i ==> senders[j] == Sender(Some(RefOf(stream.tracks[j])))
      invariant forall j :: 0 <= j < i ==> calls[j] == AddTrack(stream.tracks[j].id, stream.id)
    {
      var track := stream.tracks[i];
      senders := senders + [Sender(Some(RefOf(track)))];
      calls := calls + [AddTrack(track.id, stream.id)];
    }
  }

  /// The forEach of cleanup: stop() on every track of `s`, in order.
  method StopAll(s: Stream) returns (stopped: Stream, calls: seq<Call>)
    ensures stopped == Stopped(s)
    ensures calls == StopCalls(s.tracks)
  {
    var tracks := s.tracks;
    calls := [];
    for i := 0 to |s.tracks|
      invariant |tracks| == |s.tracks| && |calls| == i
      invariant forall j :: 0 <= j < i ==> tracks[j] == s.tracks[j].(live := false)
      invariant forall j :: i <= j < |s.tracks| ==> tracks[j] == s.tracks[j]
      invariant forall j :: 0 <= j < i ==> calls[j] == StopTrack(s.tracks[j].id)
    {
      var t := tracks[i];
      calls := calls + [StopTrack(t.id)];
      tracks := tracks[i := t.(live := false)];
    }
    stopped := s.(tracks := tracks);
  }

  class VideoChat {
    const roomId: RoomId
    var userName: string
    var localStream: Option<Stream>
    var remoteStream: Option<StreamId>
    var peerConnection: Option<PeerConnection>
    /// `this.connection` is non-null.
    var hasConnection: bool
    /// `this.connection.connectionId`, null until the connection has started.
    var connectionId: Option<ConnId>
    var isVideoEnabled: bool
    var isAudioEnabled: bool
    var isChatOpen: bool
    var isScreenSharing: bool
    /// The value of the chat input box.
    var messageInput: string
    /// The lines added to the chat panel, in order.
    var chatLog: seq<ChatEntry>
    /// Every call made into SignalR and WebRTC, in order.
    var invoked: seq<Call>

    function State(): ClientState
      reads this
    {
      ClientState(userName, localStream, remoteStream, peerConnection, hasConnection,
        connectionId, isVideoEnabled, isAudioEnabled, isChatOpen, isScreenSharing,
        messageInput, chatLog, invoked)
    }

    /// `new VideoChat(roomId)` up to its first suspension: the fields are
    /// set, the hub connection is built and its start() has been called.
    constructor (roomId: RoomId)
      ensures this.roomId == roomId
      ensures State() == ClientState("", None, None, None, true, None, true, true, false, false, "", [], [StartConnection])
    {
      this.roomId := roomId;
      userName := "";
      localStream, remoteStream, peerConnection := None, None, None;
      isVideoEnabled, isAudioEnabled := true, true;
      isChatOpen, isScreenSharing := false, false;
      messageInput, chatLog := "", [];
      hasConnection := true;
      connectionId := None;
      invoked := [StartConnection];
    }

    /// The outcome of `await this.connection.start()`: the connection id,
    /// or none when it failed (the error is only logged).
    method ConnectionStarted(id: Option<ConnId>)
      modifies this
      ensures State() == old(State()).(connectionId := if id.Some? then id else old(connectionId))
    {
      if id.Some? {
        connectionId := id;
      }
    }

    /// The user types into the chat input box.
    method SetMessageInput(text: string)
      modifies this
      ensures State() == old(State()).(messageInput := text)
    {
      messageInput := text;
    }

    /// Handler for "UserJoined": a system line and nothing else.
    method OnUserJoined(name: string)
      modifies this
      ensures State() == old(State()).(chatLog := old(chatLog) + [SystemLine(name + " joined the room")])
    {
      chatLog := chatLog + [SystemLine(name + " joined the room")];
    }

    /// Handler for "UserLeft": a system line, and the remote stream is
    /// dropped.
    method OnUserLeft(name: string)
      modifies this
      ensures remoteStream == None
      ensures State() == old(State()).(remoteStream := None, chatLog := old(chatLog) + [SystemLine(name + " left the room")])
    {
      chatLog := chatLog + [SystemLine(name + " left the room")];
      HandleRemoteStreamEnded();
    }

    /// Handler for "ReceiveMessage": shown whoever sent it, this client
    /// included.
    method OnReceiveMessage(user: string, message: string)
      modifies this
      ensures State() == old(State()).(chatLog := old(chatLog) + [MessageLine(user + ": " + message)])
    {
      chatLog := chatLog + [MessageLine(user + ": " + message)];
    }

    /// Handler for "ReceiveOffer": its own offer changes nothing; any other
    /// is answered.
    method OnReceiveOffer(offer: Payload, fromConnectionId: ConnId, answer: Payload, failsAt: nat)
      modifies this
      ensures IsOwnEcho(old(connectionId), ReceiveSignal(Offer, offer, fromConnectionId)) ==> State() == old(State())
      ensures !IsOwnEcho(old(connectionId), ReceiveSignal(Offer, offer, fromConnectionId)) ==>
        var pc := if old(peerConnection).Some? then old(peerConnection).value else InitialPeer(old(localStream));
        var before := old(invoked) + if old(peerConnection).Some? then [] else InitCalls(old(localStream));
        State() == old(State()).(
          peerConnection := Some(pc.(
            remoteDescription := if failsAt >= 1 then Some(offer) else pc.remoteDescription,
            localDescription := if failsAt >= 3 then Some(answer) else pc.localDescription)),
          invoked := before + AnswerCalls(roomId, offer, answer, failsAt))
      ensures !IsOwnEcho(old(connectionId), ReceiveSignal(Offer, offer, fromConnectionId)) && failsAt >= 3 ==>
        && |old(invoked)| < |invoked| && invoked[..|old(invoked)|] == old(invoked)
        && invoked[|invoked| - 1] == Invoke(SendSignal(Answer, roomId, answer))
        && forall i :: |old(invoked)| <= i < |invoked| - 1 ==> !invoked[i].Invoke?
    {
      if Some(fromConnectionId) != connectionId {
        HandleReceiveOffer(offer, answer, failsAt);
      }
    }

    /// Handler for "ReceiveAnswer": its own answer changes nothing.
    method OnReceiveAnswer(answer: Payload, fromConnectionId: ConnId, fails: bool)
      modifies this
      ensures IsOwnEcho(old(connectionId), ReceiveSignal(Answer, answer, fromConnectionId)) ==> State() == old(State())
      ensures !IsOwnEcho(old(connectionId), ReceiveSignal(Answer, answer, fromConnectionId)) && old(peerConnection).None? ==> State() == old(State())
      ensures !IsOwnEcho(old(connectionId), ReceiveSignal(Answer, answer, fromConnectionId)) && old(peerConnection).Some? ==> State() == old(State()).(
        peerConnection := Some(if fails then old(peerConnection).value else old(peerConnection).value.(remoteDescription := Some(answer))),
        invoked := old(invoked) + [SetRemoteDescription(answer)])
    {
      if Some(fromConnectionId) != connectionId {
        HandleReceiveAnswer(answer, fails);
      }
    }

    /// Handler for "ReceiveIceCandidate": its own candidate changes nothing.
    method OnReceiveIceCandidate(candidate: Payload, fromConnectionId: ConnId, fails: bool)
      modifies this
      ensures IsOwnEcho(old(connectionId), ReceiveSignal(IceCandidate, candidate, fromConnectionId)) ==> State() == old(State())
      ensures !IsOwnEcho(old(connectionId), ReceiveSignal(IceCandidate, candidate, fromConnectionId)) && old(peerConnection).None? ==> State() == old(State())
      ensures !IsOwnEcho(old(connectionId), ReceiveSignal(IceCandidate, candidate, fromConnectionId)) && old(peerConnection).Some? ==> State() == old(State()).(
        peerConnection := Some(if fails then old(peerConnection).value
          else old(peerConnection).value.(remoteCandidates := old(peerConnection).value.remoteCandidates + [candidate])),
        invoked := old(invoked) + [AddIceCandidate(candidate)])
    {
      if Some(fromConnectionId) != connectionId {
        HandleReceiveIceCandidate(candidate, fails);
      }
    }

    /// joinRoom: an empty or all-whitespace name changes nothing (the user
    /// is alerted); otherwise the trimmed name is kept, the camera and
    /// microphone are requested (`media`, none when refused, which is only
    /// logged), "JoinRoom" is invoked and, unless it rejects, the peer
    /// connection is set up.
    method JoinRoom(input: string, media: Option<Stream>, joinFails: bool)
      modifies this
      ensures JsText.Trim(input) == [] ==> State() == old(State())
      ensures JsText.Trim(input) != [] ==>
        var stream := if media.Some? then media else old(localStream);
        State() == old(State()).(
          userName := JsText.Trim(input),
          localStream := stream,
          peerConnection := if joinFails then old(peerConnection) else Some(InitialPeer(stream)),
          invoked := old(invoked) + [GetUserMedia, Invoke(Request.JoinRoom(roomId, JsText.Trim(input)))]
            + (if joinFails then [] else InitCalls(stream)))
    {
      var name := JsText.Trim(input);
      if name != [] {
        Enter(name, media, joinFails);
      }
    }

    /// The part of joinRoom that runs once the name is known to be non-blank.
    method Enter(name: string, media: Option<Stream>, joinFails: bool)
      modifies this
      ensures
        var stream := if media.Some? then media else old(localStream);
        State() == old(State()).(
          userName := name,
          localStream := stream,
          peerConnection := if joinFails then old(peerConnection) else Some(InitialPeer(stream)),
          invoked := old(invoked) + [GetUserMedia, Invoke(Request.JoinRoom(roomId, name))]
            + (if joinFails then [] else InitCalls(stream)))
    {
      userName := name;
      SetupLocalStream(media);
      invoked := invoked + [Invoke(Request.JoinRoom(roomId, userName))];
      ghost var joined := State();
      assert joined == old(State()).(
        userName := name,
        localStream := if media.Some? then media else old(localStream),
        invoked := old(invoked) + [GetUserMedia, Invoke(Request.JoinRoom(roomId, name))]);
      if joinFails {
        return;
      }
      InitializePeerConnection();
      assert State() == joined.(peerConnection := Some(InitialPeer(localStream)), invoked := joined.invoked + InitCalls(localStream));
    }

    /// setupLocalStream: getUserMedia; the stream is kept when granted.
    method SetupLocalStream(media: Option<Stream>)
      modifies this
      ensures State() == old(State()).(
        localStream := if media.Some? then media else old(localStream),
        invoked := old(invoked) + [GetUserMedia])
    {
      invoked := invoked + [GetUserMedia];
      if media.Some? {
        localStream := media;
      }
    }

    /// initializePeerConnection: a new peer connection to which every track
    /// of the local stream is added, in order; none without a stream.
    method InitializePeerConnection()
      modifies this
      ensures peerConnection == Some(InitialPeer(old(localStream)))
      ensures State() == old(State()).(peerConnection := peerConnection, invoked := old(invoked) + InitCalls(old(localStream)))
    {
      var senders, calls := [], [];
      if localStream.Some? {
        senders, calls := AddTracks(localStream.value);
      }
      peerConnection := Some(PeerConnection(New, senders, None, None, []));
      invoked := invoked + ([NewPeerConnection(ICE_SERVERS)] + calls);
    }

    /// Browser callback `ontrack`: the first stream of the event becomes the
    /// remote stream.
    method OnTrack(stream: StreamId)
      requires peerConnection.Some?
      modifies this
      ensures State() == old(State()).(remoteStream := Some(stream))
    {
      remoteStream := Some(stream);
    }

    /// Browser callback `onicecandidate`: a gathered candidate is sent to the
    /// room; the end-of-candidates event (no candidate) sends nothing.
    method OnIceCandidate(candidate: Option<Payload>)
      requires peerConnection.Some?
      modifies this
      ensures State() == old(State()).(invoked := old(invoked) +
        (if candidate.Some? then [Invoke(SendSignal(IceCandidate, roomId, candidate.value))] else []))
    {
      if candidate.Some? {
        invoked := invoked + [Invoke(SendSignal(IceCandidate, roomId, candidate.value))];
      }
    }

    /// Browser callback `onconnectionstatechange`, with the state the
    /// browser moved to; reaching 'connected' adds a system line.
    method OnConnectionStateChange(state: ConnectionState)
      requires peerConnection.Some?
      modifies this
      ensures State() == old(State()).(
        peerConnection := Some(old(peerConnection).value.(connectionState := state)),
        chatLog := old(chatLog) + (if state == Connected then [SystemLine("Connected to peer!")] else []))
    {
      peerConnection := Some(peerConnection.value.(connectionState := state));
      if state == Connected {
        chatLog := chatLog + [SystemLine("Connected to peer!")];
      }
    }

    /// createOffer: createOffer (yielding `offer`), setLocalDescription,
    /// then "SendOffer". Without a peer connection the first call throws and
    /// nothing happens.
    method CreateOfferAndSend(offer: Payload, failsAt: nat)
      modifies this
      ensures old(peerConnection).None? ==> State() == old(State())
      ensures old(peerConnection).Some? ==> State() == old(State()).(
        peerConnection := Some(if failsAt >= 2 then old(peerConnection).value.(localDescription := Some(offer)) else old(peerConnection).value),
        invoked := old(invoked) + OfferCalls(roomId, offer, failsAt))
    {
      if peerConnection.None? {
        return;
      }
      invoked := invoked + [CreateOffer];
      if failsAt == 0 {
        return;
      }
      invoked := invoked + [SetLocalDescription(offer)];
      if failsAt == 1 {
        return;
      }
      peerConnection := Some(peerConnection.value.(localDescription := Some(offer)));
      invoked := invoked + [Invoke(SendSignal(Offer, roomId, offer))];
    }

    /// handleReceiveOffer: a peer connection is created first if there is
    /// none; then setRemoteDescription(offer), createAnswer (yielding
    /// `answer`), setLocalDescription(answer) and "SendAnswer".
    method HandleReceiveOffer(offer: Payload, answer: Payload, failsAt: nat)
      modifies this
      ensures peerConnection.Some?
      ensures
        var pc := if old(peerConnection).Some? then old(peerConnection).value else InitialPeer(old(localStream));
        var before := old(invoked) + if old(peerConnection).Some? then [] else InitCalls(old(localStream));
        State() == old(State()).(
          peerConnection := Some(pc.(
            remoteDescription := if failsAt >= 1 then Some(offer) else pc.remoteDescription,
            localDescription := if failsAt >= 3 then Some(answer) else pc.localDescription)),
          invoked := before + AnswerCalls(roomId, offer, answer, failsAt))
    {
      if peerConnection.None? {
        InitializePeerConnection();
      }
      AnswerOffer(offer, answer, failsAt);
    }

    /// The part of handleReceiveOffer that runs once a peer connection
    /// exists.
    method AnswerOffer(offer: Payload, answer: Payload, failsAt: nat)
      requires peerConnection.Some?
      modifies this
      ensures State() == old(State()).(
        peerConnection := Some(old(peerConnection).value.(
          remoteDescription := if failsAt >= 1 then Some(offer) else old(peerConnection).value.remoteDescription,
          localDescription := if failsAt >= 3 then Some(answer) else old(peerConnection).value.localDescription)),
        invoked := old(invoked) + AnswerCalls(roomId, offer, answer, failsAt))
    {
      invoked := invoked + [SetRemoteDescription(offer)];
      if failsAt == 0 {
        return;
      }
      peerConnection := Some(peerConnection.value.(remoteDescription := Some(offer)));
      invoked := invoked + [CreateAnswer];
      if failsAt == 1 {
        return;
      }
      invoked := invoked + [SetLocalDescription(answer)];
      if failsAt == 2 {
        return;
      }
      peerConnection := Some(peerConnection.value.(localDescription := Some(answer)));
      invoked := invoked + [Invoke(SendSignal(Answer, roomId, answer))];
    }

    /// handleReceiveAnswer: setRemoteDescription(answer); without a peer
    /// connection the call throws and nothing happens.
    method HandleReceiveAnswer(answer: Payload, fails: bool)
      modifies this
      ensures old(peerConnection).None? ==> State() == old(State())
      ensures old(peerConnection).Some? ==> State() == old(State()).(
        peerConnection := Some(if fails then old(peerConnection).value else old(peerConnection).value.(remoteDescription := Some(answer))),
        invoked := old(invoked) + [SetRemoteDescription(answer)])
    {
      if peerConnection.None? {
        return;
      }
      invoked := invoked + [SetRemoteDescription(answer)];
      if !fails {
        peerConnection := Some(peerConnection.value.(remoteDescription := Some(answer)));
      }
    }

    /// handleReceiveIceCandidate: addIceCandidate(candidate); without a peer
    /// connection the call throws and nothing happens. A candidate that
    /// arrives before the remote description is not queued: its rejection
    /// is `fails`.
    method HandleReceiveIceCandidate(candidate: Payload, fails: bool)
      modifies this
      ensures old(peerConnection).None? ==> State() == old(State())
      ensures old(peerConnection).Some? ==> State() == old(State()).(
        peerConnection := Some(if fails then old(peerConnection).value
          else old(peerConnection).value.(remoteCandidates := old(peerConnection).value.remoteCandidates + [candidate])),
        invoked := old(invoked) + [AddIceCandidate(candidate)])
    {
      if peerConnection.None? {
        return;
      }
      invoked := invoked + [AddIceCandidate(candidate)];
      if !fails {
        peerConnection := Some(peerConnection.value.(remoteCandidates := peerConnection.value.remoteCandidates + [candidate]));
      }
    }

    /// toggleVideo.
    method ToggleVideo()
      modifies this
      ensures State() == ToggleStep(old(State()), Video)
    {
      if localStream.Some? {
        var s := localStream.value;
        var i := FirstOfKind(s.tracks, Video);
        if i.Some? {
          var track := s.tracks[i.value];
          s := s.(tracks := s.tracks[i.value := track.(enabled := !track.enabled)]);
          localStream := Some(s);
          isVideoEnabled := s.tracks[i.value].enabled;
        }
      }
    }

    /// toggleAudio.
    method ToggleAudio()
      modifies this
      ensures State() == ToggleStep(old(State()), Audio)
    {
      if localStream.Some? {
        var s := localStream.value;
        var i := FirstOfKind(s.tracks, Audio);
        if i.Some? {
          var track := s.tracks[i.value];
          s := s.(tracks := s.tracks[i.value := track.(enabled := !track.enabled)]);
          localStream := Some(s);
          isAudioEnabled := s.tracks[i.value].enabled;
        }
      }
    }

    /// The replaceTrack step shared by toggleScreenShare and stopScreenShare:
    /// the first sender carrying video is given the first video track of
    /// `media`. `ok` is false when that call rejects.
    method ReplaceVideoTrack(media: Stream, replaceFails: bool) returns (ok: bool)
      requires peerConnection.Some?
      modifies this
      ensures ok == (FirstVideoSender(old(peerConnection).value.senders).None? || !replaceFails)
      ensures State() == old(State()).(
        peerConnection := if ok then Some(ReplacedVideo(old(peerConnection).value, media)) else old(peerConnection),
        invoked := old(invoked) + ReplaceCalls(old(peerConnection).value, media))
    {
      var pc := peerConnection.value;
      var j := FirstVideoSender(pc.senders);
      if j.None? {
        return true;
      }
      var i := FirstOfKind(media.tracks, Video);
      var track := if i.Some? then Some(media.tracks[i.value]) else None;
      invoked := invoked + [ReplaceTrack(j.value, if track.Some? then Some(track.value.id) else None)];
      if replaceFails {
        return false;
      }
      peerConnection := Some(pc.(senders := pc.senders[j.value := Sender(if track.Some? then Some(RefOf(track.value)) else None)]));
      return true;
    }

    /// toggleScreenShare (its effect on the flags, the senders and the
    /// log): when not sharing, getDisplayMedia yields `media` (none when
    /// refused) and the outgoing video track is replaced by the screen's;
    /// when sharing, it is stopScreenShare with `media` as the camera stream.
    method ToggleScreenShare(media: Option<Stream>, replaceFails: bool)
      modifies this
      ensures old(isScreenSharing) ==> State() == StopShareStep(old(State()), media, replaceFails)
      ensures !old(isScreenSharing) ==> (
        var started := media.Some? && old(peerConnection).Some? && (FirstVideoSender(old(peerConnection).value.senders).None? || !replaceFails);
        State() == old(State()).(
          isScreenSharing := started,
          peerConnection := if started then Some(ReplacedVideo(old(peerConnection).value, media.value)) else old(peerConnection),
          invoked := old(invoked) + [GetDisplayMedia] +
            (if media.Some? && old(peerConnection).Some? then ReplaceCalls(old(peerConnection).value, media.value) else [])))
    {
      if !isScreenSharing {
        invoked := invoked + [GetDisplayMedia];
        if media.None? || peerConnection.None? {
          return;
        }
        var ok := ReplaceVideoTrack(media.value, replaceFails);
        if !ok {
          return;
        }
        isScreenSharing := true;
      } else {
        StopScreenShare(media, replaceFails);
      }
    }

    /// stopScreenShare: getUserMedia yields `camera` (none when refused);
    /// the outgoing video track is replaced by the camera's, and the camera
    /// stream becomes the local stream.
    method StopScreenShare(camera: Option<Stream>, replaceFails: bool)
      modifies this
      ensures State() == StopShareStep(old(State()), camera, replaceFails)
    {
      invoked := invoked + [GetUserMedia];
      if camera.None? || peerConnection.None? {
        return;
      }
      var ok := ReplaceVideoTrack(camera.value, replaceFails);
      if !ok {
        return;
      }
      localStream := camera;
      isScreenSharing := false;
    }

    /// toggleChat.
    method ToggleChat()
      modifies this
      ensures State() == ToggleChatStep(old(State()))
    {
      isChatOpen := !isChatOpen;
    }

    /// sendMessage: a message that is not blank after trimming is sent,
    /// trimmed, under the current user name, and the input box is cleared;
    /// otherwise nothing happens.
    method SendMessage()
      modifies this
      ensures JsText.Trim(old(messageInput)) != [] && old(hasConnection) ==> State() == old(State()).(
        messageInput := "",
        invoked := old(invoked) + [Invoke(Request.SendMessageToRoom(roomId, old(userName), JsText.Trim(old(messageInput))))])
      ensures !(JsText.Trim(old(messageInput)) != [] && old(hasConnection)) ==> State() == old(State())
    {
      var message := JsText.Trim(messageInput);
      if message != [] && hasConnection {
        invoked := invoked + [Invoke(Request.SendMessageToRoom(roomId, userName, message))];
        messageInput := "";
      }
    }

    /// leaveRoom, once the user has answered the confirmation: "LeaveRoom"
    /// is invoked and, unless that rejects, everything is cleaned up (the
    /// page is then left in either case).
    method LeaveRoom(confirmed: bool, invokeFails: bool)
      modifies this
      ensures !confirmed ==> State() == old(State())
      ensures confirmed && invokeFails && old(hasConnection) ==>
        State() == old(State()).(invoked := old(invoked) + [Invoke(Request.LeaveRoom(roomId, old(userName)))])
      ensures confirmed && !(invokeFails && old(hasConnection)) ==>
        State() == CleanedUp(old(State()).(invoked := old(invoked) + if old(hasConnection) then [Invoke(Request.LeaveRoom(roomId, old(userName)))] else []))
    {
      if !confirmed {
        return;
      }
      if hasConnection {
        invoked := invoked + [Invoke(Request.LeaveRoom(roomId, userName))];
        if invokeFails {
          return;
        }
      }
      Cleanup();
    }

    /// handleRemoteStreamEnded.
    method HandleRemoteStreamEnded()
      modifies this
      ensures State() == old(State()).(remoteStream := None)
    {
      remoteStream := None;
    }

    /// cleanup: every local track is stopped, in order, then the peer
    /// connection is closed and the hub connection stopped.
    method Cleanup()
      modifies this
      ensures State() == CleanedUp(old(State()))
    {
      StopLocalStream();
      ClosePeer();
      StopHub();
      assert invoked == old(invoked) + (StopCalls(TracksOf(old(localStream)))
        + (if old(peerConnection).Some? then [ClosePeerConnection] else [])
        + (if old(hasConnection) then [StopConnection] else []));
    }

    /// The second step of cleanup: the peer connection, if any, is closed.
    method ClosePeer()
      modifies this
      ensures State() == old(State()).(
        peerConnection := if old(peerConnection).Some? then Some(old(peerConnection).value.(connectionState := Closed)) else None,
        invoked := old(invoked) + if old(peerConnection).Some? then [ClosePeerConnection] else [])
    {
      if peerConnection.Some? {
        invoked := invoked + [ClosePeerConnection];
        peerConnection := Some(peerConnection.value.(connectionState := Closed));
      }
    }

    /// The last step of cleanup: the hub connection, if any, is stopped.
    method StopHub()
      modifies this
      ensures State() == old(State()).(invoked := old(invoked) + if old(hasConnection) then [StopConnection] else [])
    {
      if hasConnection {
        invoked := invoked + [StopConnection];
      }
    }

    /// The first step of cleanup: every local track is stopped, in order.
    method StopLocalStream()
      modifies this
      ensures State() == old(State()).(
        localStream := if old(localStream).Some? then Some(Stopped(old(localStream).value)) else None,
        invoked := old(invoked) + StopCalls(TracksOf(old(localStream))))
    {
      if localStream.Some? {
        var stopped, calls := StopAll(localStream.value);
        invoked := invoked + calls;
        localStream := Some(stopped);
      } else {
        assert StopCalls([]) == [];
      }
    }

    /// handleUserJoined: an offer is made only when a peer connection exists
    /// and has not started connecting.
    method HandleUserJoined(offer: Payload, failsAt: nat)
      modifies this
      ensures !(old(peerConnection).Some? && old(peerConnection).value.connectionState == New) ==> State() == old(State())
      ensures old(peerConnection).Some? && old(peerConnection).value.connectionState == New ==> State() == old(State()).(
        peerConnection := Some(if failsAt >= 2 then old(peerConnection).value.(localDescription := Some(offer)) else old(peerConnection).value),
        invoked := old(invoked) + OfferCalls(roomId, offer, failsAt))
    {
      if peerConnection.Some? && peerConnection.value.connectionState == New {
        CreateOfferAndSend(offer, failsAt);
      }
    }
  }
}
