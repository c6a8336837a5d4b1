# VideoChat signalling relay, modelled in Dafny

This project models the two stateful pieces of the VideoChat application:

- The SignalR hub `ChatHub` (`VideoChat/Hubs/ChatHub.cs`). It keeps a table from room id to the set of member connections. It fans chat, join/leave notices and WebRTC signalling out to the members of a room. Signalling messages are tagged with the sender's connection id.
- The browser controller `VideoChat` (`wwwroot/js/videochat.js`). Its fields are kept as the fields of a class, and every call into SignalR or WebRTC is appended to an `invoked` log. It drops signalling that carries its own connection id. It creates the peer connection lazily when an offer arrives, and makes an offer only while that connection is in state `new`. It trims the name and the chat message it reads. Its media toggles flip a track flag and mirror it in a field.

Files:

- `protocol.dfy` (module `Protocol`): identifiers, the hub requests a client can invoke, and the events the hub sends.
- `relay.dfy` (module `Relay`): the group table as a `map<RoomId, set<ConnId>>`, and the fan-out. It contains the `ChatHub` class, which has the table, the set of live connections, and an outbox of deliveries.
- `jstext.dfy` (module `JsText`): ECMAScript's `String.prototype.trim`.
- `client.dfy` (module `Client`): the `VideoChat` class. Each method's `ensures` gives the whole new state, usually through a specification function on a `ClientState` value (`ToggleStep`, `CleanedUp`, `StopShareStep`, …).
- `end_to_end.dfy` (module `EndToEnd`): the hub's fan-out composed with the client's echo filter. A sender never processes its own signalling, but does see its own chat.

Foreign calls are parameters of the methods that make them:

- the connection id the hub assigns;
- the stream getUserMedia or getDisplayMedia yields (none when refused);
- the SDP offer and answer createOffer and createAnswer yield;
- whether an awaited call rejects (`failsAt`, `fails`, `joinFails`, `replaceFails`, `invokeFails`).

A rejected call is still logged. The calls after it are not made, exactly as the surrounding `try`/`catch` skips them.

Behaviour the model keeps as the code has it, though it may be unintended:

- `UserJoined` also goes to the joiner.
- `LeaveRoom` removes the caller and broadcasts `UserLeft` to the remaining members, even when the caller was never a member.
- Disconnecting sends no `UserLeft`.
- Chat and signalling go to every member of the named room, the sender included. The sender need not be a member itself.
- ICE candidates that arrive before the remote description are not buffered. They go straight to `addIceCandidate`, which may reject them.

## Model

| member | source | states |
|---|---|---|
| Relay.AddToGroup | VideoChat/Hubs/ChatHub.cs:14 | after adding `c` to `r`: `r` has its old members plus `c`, no other room changes, and re-adding a member changes nothing |
| Relay.RemoveFromGroup | VideoChat/Hubs/ChatHub.cs:20 | after removing `c` from `r`: `r` has its old members minus `c`, no other room changes, and removing a non-member changes nothing |
| Relay.MembershipIsStanding | VideoChat/Hubs/ChatHub.cs:12-22 | after any sequence of joins and leaves, `c` is in `r` exactly when its last join or leave for `r` was a join |
| Relay.ApplyAllNoEmptyGroups | VideoChat/Hubs/ChatHub.cs:12-22 | the table built by joins and leaves never holds an empty group |
| Relay.FanOut | VideoChat/Hubs/ChatHub.cs:15 | a group send delivers the event to each member of the audience and to nobody else |
| Relay.FanOutDeliversOnce | VideoChat/Hubs/ChatHub.cs:15 | a group send delivers exactly once to each member and never to a non-member |
| Relay.FanOutSize | VideoChat/Hubs/ChatHub.cs:24-43 | a group send makes one delivery per member, so a send to an empty room makes none |
| Relay.JoinNotifiesEveryMemberOnce | VideoChat/Hubs/ChatHub.cs:12-16 | after JoinRoom the joiner and every earlier member each receive `UserJoined` exactly once |
| Relay.LeaveNotifiesOthersOnce | VideoChat/Hubs/ChatHub.cs:18-22 | after LeaveRoom the leaver receives no `UserLeft`, and every other earlier member receives it exactly once |
| Relay.ChatHub.SendMessage | VideoChat/Hubs/ChatHub.cs:7-10 | `ReceiveMessage(user, message)` goes to every live connection, whatever its room; the table is untouched |
| Relay.ChatHub.JoinRoom | VideoChat/Hubs/ChatHub.cs:12-16 | the caller is added to the room, then `UserJoined(name)` goes to the room's members after the add, the joiner included |
| Relay.ChatHub.LeaveRoom | VideoChat/Hubs/ChatHub.cs:18-22 | the caller is removed from the room, then `UserLeft(name)` goes to the room's members after the removal |
| Relay.ChatHub.SendMessageToRoom | VideoChat/Hubs/ChatHub.cs:24-27 | `ReceiveMessage(user, message)` goes verbatim to every member of the room, the sender included; the table is untouched |
| Relay.ChatHub.SendSignal | VideoChat/Hubs/ChatHub.cs:30-43 | the unchanged payload, tagged with the caller's id, goes to every member of the room and nobody else; the table is untouched |
| Relay.ChatHub.SendOffer | VideoChat/Hubs/ChatHub.cs:30-33 | "ReceiveOffer" with the payload and the caller's id goes to every member of the room |
| Relay.ChatHub.SendAnswer | VideoChat/Hubs/ChatHub.cs:35-38 | "ReceiveAnswer" with the payload and the caller's id goes to every member of the room |
| Relay.ChatHub.SendIceCandidate | VideoChat/Hubs/ChatHub.cs:40-43 | "ReceiveIceCandidate" with the payload and the caller's id goes to every member of the room |
| Relay.ChatHub.OnDisconnectedAsync | VideoChat/Hubs/ChatHub.cs:45-48 | a disconnect sends nothing and leaves the table as it was; only the live connections lose the caller |
| Relay.ChatHub.Handle | VideoChat/Hubs/ChatHub.cs:7-43 | a join adds the caller to the room and a leave removes it, other requests leave the table alone; each request's event goes to its audience: everyone for SendMessage, the room after the membership change for join and leave, the room for the rest |
| JsText.Trim | wwwroot/js/videochat.js:140 | trim's result lies between a whitespace prefix and a whitespace suffix; it is empty exactly when the input is all whitespace, and otherwise starts and ends with non-whitespace |
| JsText.TrimIdempotent | wwwroot/js/videochat.js:353 | trimming a trimmed string changes nothing |
| Client.FirstOfKind | wwwroot/js/videochat.js:245 | getVideoTracks()[0] / getAudioTracks()[0]: the index of the first track of that kind, or none when there is no such track |
| Client.FirstVideoSender | wwwroot/js/videochat.js:283-285 | the index of the first sender carrying a video track, or none when no sender does |
| Client.ToggleStep | wwwroot/js/videochat.js:243-271 | without a stream or a track of the kind nothing changes; otherwise the track's flag flips, the mirroring field equals the new flag, the other field is kept, and nothing else changes |
| Client.ToggleTwice | wwwroot/js/videochat.js:243-271 | toggling twice restores the stream, and the whole state when the field agreed with the track |
| Client.ToggleChatStep | wwwroot/js/videochat.js:339-340 | toggleChat negates `isChatOpen` and changes nothing else |
| Client.ToggleChatTwice | wwwroot/js/videochat.js:339-340 | two toggleChat calls give the state back |
| Client.IsOwnEcho | wwwroot/js/videochat.js:108-124 | an event is the client's own echo only when it is a signalling event and the client has an id, and then exactly when the event's sender id is that id |
| Client.SendersFor | wwwroot/js/videochat.js:174-177 | one sender per local track, in order, each carrying that track |
| Client.AddTrackCalls | wwwroot/js/videochat.js:174-177 | one addTrack call per local track, in order |
| Client.AddTracks | wwwroot/js/videochat.js:175-177 | the forEach over the local tracks gives exactly their senders and addTrack calls |
| Client.StopAll | wwwroot/js/videochat.js:416-418 | the forEach over the local tracks stops every one, in order |
| Client.Stopped | wwwroot/js/videochat.js:417 | a stopped stream keeps its tracks, in order, with none of them live |
| Client.CleanupReleasesEverything | wwwroot/js/videochat.js:414-429 | after cleanup no local track is live, the peer connection is closed, earlier calls are kept, the hub connection is stopped last, and no other field changes |
| Client.StopShareStep | wwwroot/js/videochat.js:310-337 | sharing stops only when the camera is granted, a peer connection exists and the replacement succeeds; then the camera stream becomes the local stream and its video goes out; the log gains getUserMedia, then the replaceTrack call when the camera is granted and a peer connection has a video sender, whether or not it rejects |
| Client.VideoChat.constructor | wwwroot/js/videochat.js:2-23 | the fields start as the constructor sets them, and the hub connection's start() is the only call made |
| Client.VideoChat.ConnectionStarted | wwwroot/js/videochat.js:126-131 | a successful start() gives the connection id; a failed one changes nothing |
| Client.VideoChat.OnUserJoined | wwwroot/js/videochat.js:92-95 | "UserJoined" adds a system line and changes nothing else |
| Client.VideoChat.OnUserLeft | wwwroot/js/videochat.js:97-101 | "UserLeft" adds a system line and drops the remote stream |
| Client.VideoChat.OnReceiveMessage | wwwroot/js/videochat.js:103-105 | "ReceiveMessage" adds `user: message` to the chat, whoever sent it |
| Client.VideoChat.OnReceiveOffer | wwwroot/js/videochat.js:108-112 | an offer tagged with the client's own id changes nothing; any other gives the state handleReceiveOffer gives (a peer connection created if missing, the four steps up to the first rejection) and, when nothing rejects, ends in exactly one "SendAnswer" |
| Client.VideoChat.OnReceiveAnswer | wwwroot/js/videochat.js:114-118 | an answer tagged with the client's own id changes nothing; any other gives the state handleReceiveAnswer gives: with a peer connection setRemoteDescription is called and, unless it rejects, the answer becomes the remote description; without one nothing changes |
| Client.VideoChat.OnReceiveIceCandidate | wwwroot/js/videochat.js:120-124 | a candidate tagged with the client's own id changes nothing; any other gives the state handleReceiveIceCandidate gives: with a peer connection addIceCandidate is called and, unless it rejects, the candidate is added; without one nothing changes |
| Client.VideoChat.JoinRoom | wwwroot/js/videochat.js:139-156 | a blank name changes nothing and invokes nothing; otherwise the trimmed name is kept, media is requested, "JoinRoom" is invoked and, unless it rejects, the peer connection is set up |
| Client.VideoChat.SetupLocalStream | wwwroot/js/videochat.js:158-168 | getUserMedia is called, and a granted stream becomes the local stream |
| Client.VideoChat.InitializePeerConnection | wwwroot/js/videochat.js:170-178 | a new peer connection in state `new`, configured with the two STUN servers, carrying exactly the local tracks, or none without a stream |
| Client.InitialPeerCarriesLocalTracks | wwwroot/js/videochat.js:170-178 | the new peer connection starts in state `new`, with one sender per local track in order, or no sender and only the constructor call when there is no stream |
| Client.VideoChat.OnTrack | wwwroot/js/videochat.js:181-184 | the remote stream becomes the event's stream |
| Client.VideoChat.OnIceCandidate | wwwroot/js/videochat.js:187-191 | a gathered candidate is invoked as "SendIceCandidate" to the room; the end-of-candidates event sends nothing |
| Client.VideoChat.OnConnectionStateChange | wwwroot/js/videochat.js:194-199 | the state is recorded, and reaching `connected` adds a system line |
| Client.VideoChat.CreateOfferAndSend | wwwroot/js/videochat.js:202-210 | without a peer connection nothing happens; otherwise createOffer, setLocalDescription and "SendOffer", stopping at the first rejection |
| Client.VideoChat.HandleReceiveOffer | wwwroot/js/videochat.js:212-225 | a peer connection is created first if there is none; then setRemoteDescription, createAnswer, setLocalDescription and "SendAnswer", stopping at the first rejection |
| Client.VideoChat.HandleReceiveAnswer | wwwroot/js/videochat.js:227-233 | with a peer connection the answer becomes the remote description unless the call rejects; without one nothing happens |
| Client.VideoChat.HandleReceiveIceCandidate | wwwroot/js/videochat.js:235-241 | with a peer connection the candidate is added unless the call rejects; without one nothing happens |
| Client.VideoChat.ToggleVideo | wwwroot/js/videochat.js:243-256 | the state after the call is ToggleStep of the state before, for video |
| Client.VideoChat.ToggleAudio | wwwroot/js/videochat.js:258-271 | the state after the call is ToggleStep of the state before, for audio |
| Client.VideoChat.ReplaceVideoTrack | wwwroot/js/videochat.js:282-289 | the first video sender gets the first video track of the new stream; with no video sender nothing is called; a rejected call leaves the senders as they were |
| Client.VideoChat.ToggleScreenShare | wwwroot/js/videochat.js:273-308 | when not sharing, sharing starts only if the screen is granted, a peer connection exists and the replacement succeeds; when sharing, it behaves as stopScreenShare |
| Client.VideoChat.StopScreenShare | wwwroot/js/videochat.js:310-337 | the state after the call is StopShareStep of the state before |
| Client.VideoChat.ToggleChat | wwwroot/js/videochat.js:339-350 | the state after the call is ToggleChatStep of the state before |
| Client.VideoChat.SendMessage | wwwroot/js/videochat.js:352-358 | only a message that is non-blank after trimming, with a connection, is sent, trimmed, under the user name; only then is the input cleared |
| Client.VideoChat.LeaveRoom | wwwroot/js/videochat.js:391-405 | declining changes nothing; a rejected "LeaveRoom" skips the cleanup; otherwise the state is CleanedUp of the state after the invoke |
| Client.VideoChat.HandleRemoteStreamEnded | wwwroot/js/videochat.js:407-412 | the remote stream is dropped and nothing else changes |
| Client.VideoChat.Cleanup | wwwroot/js/videochat.js:414-429 | the state after the call is CleanedUp of the state before |
| Client.VideoChat.HandleUserJoined | wwwroot/js/videochat.js:432-437 | createOffer runs only when a peer connection exists in state `new`; otherwise nothing changes |
| EndToEnd.SenderNeverProcessesOwnSignal | VideoChat/Hubs/ChatHub.cs:32 | a signalling message relayed to a room is acted on by every member except its sender, and by nobody outside the room |
| EndToEnd.ChatEchoesToSender | VideoChat/Hubs/ChatHub.cs:26 | a room chat message is acted on by every member, the sender included |

## Left out

- DOM and UI work: `setupDOMElements`, `setupEventListeners`, the rendering in `addChatMessage` (the model keeps only the line it adds), the `remoteUserName` label, `srcObject`, button classes and icons, `showUserNameModal`, `alert`/`confirm` (the user's answer is a parameter), navigation through `window.location`, and `copyRoomId` with its clipboard and timer. These are UI code with no logic to state.
- `escapeHtml`: it delegates to the browser's HTML serialiser, which is not part of this model.
- The `DOMContentLoaded` block at the end of videochat.js (lines 441-468). It is timing-based. Its `beforeunload` hook is a call of `Cleanup`, and `HandleUserJoined` models the `new`-state guard its delayed offer repeats. `handleUserJoined` itself is never called from the class.
- `VideoChat/Controllers/VideoChatController.cs` is not part of this model: it is MVC routing with random GUIDs.
- WebRTC and media internals: SDP and candidate contents, ICE gathering, the browser's own `connectionState` transitions, and what getUserMedia, getDisplayMedia and replaceTrack do inside. Their outcomes are method parameters, and the browser callbacks are methods the environment calls.
- SignalR transport and asynchrony. The hub handles one call at a time, and each client method runs to completion. The interleavings of awaited steps with incoming events are not modelled. Rejections of un-awaited invokes ("SendMessageToRoom", "SendIceCandidate") are not modelled either.
- Relay.ChatHub.Connect: the framework, not ChatHub, registers connections. This method only stands in for it.
- Relay.ChatHub.OnDisconnectedAsync: SignalR's automatic removal of a closed connection from its groups is not modelled, so the table keeps a connection that has gone. Later group sends, and the counts in `JoinNotifiesEveryMemberOnce` and `LeaveNotifiesOthersOnce`, still include it.
- Track aliasing: an RTCRtpSender and the local stream share track objects. The model keeps values and has senders hold the track's id and kind, so muting a track is not seen through the sender.
- Client.VideoChat.ToggleScreenShare: the screen track's `onended` hook is not modelled. A screen stream without a video track makes that assignment throw after sharing has started. The model keeps the effect, which is that sharing is on.
- Client.VideoChat.StopScreenShare: as in the source, the old screen and camera tracks are not stopped, and `isVideoEnabled`/`isAudioEnabled` are not re-synchronised with the new camera stream.
