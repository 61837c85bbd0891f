# Signalling core of the WebRTC video-calling app

This project models the two pieces of logic in the video-calling app that decide who is told what. Everything else in the app is UI, media capture or transport.

- **The relay** (`video-calling-app/server/server.js`). Each connecting socket is sent its own id as `yourID`. Each of the eight `socket.on` handlers forwards one inbound event to one connection: the one named by the envelope's `userToCall` or `to` field. The forwarded event has a fixed new name and a fixed projection of the envelope. Module `Server` holds this table (`Handler`) and the routing function `Route`. The live connections are a set of ids, which stands in for socket.io's per-id rooms. `Run` steps through a sequence of connects, disconnects and inbound events.
- **The client** (`video-calling-app/client/src/App.js`). This is the component's call and chat state: `isCallAccepted`, `incomingCallInfo`, `messages`, `newMessage`, `userToCall`, `userId`, the camera and microphone flags, the screen-share flag, the stream, and `connectionRef.current`.
  - Module `Client` gives each handler as a function from the old state to the new state plus the socket emissions it makes, in order. The lemmas are stated about these functions.
  - Module `ClientApp` is the same component as a class. The fields are updated in place, and each method is proved to match its `Client` function.
- **Shared pieces.** `Wire` defines the values on the event channel. `JsString` models `String.prototype.trim`, which the client uses for its blank-input guards.
- **Cross-check.** `Session` puts client and server together. It shows a chat message and a file arriving unchanged, and the call handshake handing each peer the other's signal. It also shows two event names that do not match between the files:
  - the client emits `rejectCall`, and the server has no handler for it;
  - the server emits `screenShareStopped`, while the client listens for `stopScreenShare`.

Payloads are opaque. A negotiation signal, an ICE candidate or a file's data is a `Blob` (an uninterpreted type) or a string. A JavaScript property whose value is `undefined` is modelled as an absent key, because serialisation drops it.

A few facts about the code that the model keeps:
- The event names are `callUser`, `incomingCall`, `answerCall`, `callAccepted`, `sendICECandidate`, `receiveICECandidate`, `endCall`, `callEnded`, `startScreenShare`, `screenShareStarted`, `stopScreenShare`, `screenShareStopped`, `sendMessage`, `sendFile` and `message`.
- A call names its callee in the envelope field `userToCall`; every other handler uses `to`.
- The server has no `rejectCall` handler.
- The live connections are only socket.io's rooms, so connecting an id that is already live leaves the set unchanged.
- The server never checks `from` against the id of the socket that sent the event.

## Model

| member | source | states |
|---|---|---|
| Server.Route | video-calling-app/server/server.js:37-81 | An inbound event yields a delivery exactly when its name has a handler and the handler's target field holds the id of a live connection. The delivery goes to that id only, under the table's outbound name, with the table's projection of the envelope. Otherwise nothing is sent. |
| Server.Connect | video-calling-app/server/server.js:30-34 | A new connection joins the live set and gets exactly one `yourID` on its own channel, carrying its own id. |
| Server.Disconnect | video-calling-app/server/server.js:83-85 | The closed id leaves the live set and no other id changes. |
| Server.Step | video-calling-app/server/server.js:30-86 | A connect adds the id and sends it exactly its `yourID`. A disconnect removes the id and sends nothing. An inbound event never changes the live set, and one from a socket that is not live sends nothing. |
| Server.CallUserRelay | video-calling-app/server/server.js:37-42 | `callUser` reaches `data.userToCall` as `incomingCall` carrying exactly `from` and `signal`. Every other envelope field is dropped. |
| Server.AnswerCallRelay | video-calling-app/server/server.js:45-47 | `answerCall` reaches `data.to` as `callAccepted` with `data.signal` alone as its argument. |
| Server.IceCandidateRelay | video-calling-app/server/server.js:50-52 | `sendICECandidate` reaches `data.to` as `receiveICECandidate` with `data.candidate`, unchanged. |
| Server.CallEndAndScreenShareRelay | video-calling-app/server/server.js:55-69 | `endCall` and `stopScreenShare` become `callEnded` and `screenShareStopped` with no argument. `startScreenShare` becomes `screenShareStarted` carrying only `from`. |
| Server.ChatAndFileRelay | video-calling-app/server/server.js:72-81 | `sendMessage` and `sendFile` both deliver the whole envelope, unmodified, as `message` to `data.to`. |
| Server.UnhandledEventDropped | video-calling-app/server/server.js:37-81 | An event name outside the eight handled ones, such as `rejectCall`, delivers nothing whatever the envelope. |
| Server.RouteDependsOnlyOnTarget | video-calling-app/server/server.js:37-81 | Whether and what is delivered depends only on whether the ids mentioned in the envelope are live, not on the rest of the live set. |
| Server.DisconnectedIsUnreachable | video-calling-app/server/server.js:83-85 | After `id` disconnects, no event is delivered to `id`. |
| Server.AtMostOneDeliveryPerStep | video-calling-app/server/server.js:30-86 | Over any run, the server sends at most one event per step. |
| Server.NeverConnectedReceivesNothing | video-calling-app/server/server.js:37-81 | An id that is not live at the start and never connects during a run receives nothing. There is no queueing or retry. |
| Server.StepDeliversToLiveId | video-calling-app/server/server.js:30-86 | Whatever one step sends, a `yourID` or a relayed event, goes to an id that is live once the step is taken. |
| Server.DeliveriesGoToLiveIds | video-calling-app/server/server.js:30-86 | Every delivery in a run goes to an id that was live at the start or connected during the run. |
| Server.CallExchange | video-calling-app/server/server.js:37-57 | With caller and callee both live, the call, the answer and the hang-up deliver exactly `incomingCall {from, signal}` to B, the bare answer to A and `callEnded` to B. The live set does not change. |
| Server.CallScenario | video-calling-app/server/server.js:30-57 | Two clients connect, then call, answer and hang up. The run yields exactly the two `yourID` replies, then `incomingCall {from, signal}` to B, the answer to A, and `callEnded` to B. |
| Server.GhostCallScenario | video-calling-app/server/server.js:37-42 | Calling an id with no connection sends nothing beyond the caller's own `yourID`. |
| JsString.LeadingSpace | video-calling-app/client/src/App.js:159 | The count of leading white-space code points is exact: all of them are white space, and the next one is not. |
| JsString.TrailingSpace | video-calling-app/client/src/App.js:243 | The count of trailing white-space code points is exact in the same way. |
| JsString.Trim | video-calling-app/client/src/App.js:159 | `trim()` returns the slice of the input that is left once the maximal white-space prefix and suffix are removed. The result neither starts nor ends with white space, and everything removed is white space. |
| JsString.BlankIffAllWhiteSpace | video-calling-app/client/src/App.js:243 | `!s.trim()` holds exactly when every code point of `s` is ECMAScript white space or a line terminator. Both directions are proved. |
| Client.BusyRejectsIncomingCall | video-calling-app/client/src/App.js:110-114 | During a call, an incoming call emits exactly `rejectCall {to: from}` and changes no state, `incomingCallInfo` included. |
| Client.IdleRecordsIncomingCall | video-calling-app/client/src/App.js:115 | Outside a call, an incoming call sets `incomingCallInfo` to `{isSomeoneCalling: true, from, signal}` and emits nothing. |
| Client.DestroyResetsAndIsIdempotent | video-calling-app/client/src/App.js:127-134 | After `destroyConnection` there is no call, `incomingCallInfo` is `{}` and there is no peer. Nothing is emitted, the chat is kept, and a second call equals one. |
| Client.BlankCalleeIsIgnored | video-calling-app/client/src/App.js:158-162 | With a blank or white-space-only `userToCall`, `initiateCall` creates no peer, changes nothing and emits nothing. |
| Client.CalleeGetsInitiator | video-calling-app/client/src/App.js:163-171 | Otherwise an initiating peer is stored. Its `signal` callback emits `callUser {userToCall, from: userId, signal}` with the values current when the call was started. |
| Client.ReplacedPeerKeepsItsCallee | video-calling-app/client/src/App.js:163-185 | A peer that `initiateCall` stored and that was then replaced, by answering another caller or by calling a retyped id, still sends its offer as `callUser` to the callee it was created for, from this user. |
| Client.BlankMessageIsIgnored | video-calling-app/client/src/App.js:243 | A white-space-only message changes nothing and emits nothing. |
| Client.MessageIsSentAndKept | video-calling-app/client/src/App.js:244-248 | Any other message emits `sendMessage {from: userId, to: userToCall or incomingCallInfo.from, text}` and appends the same object to `messages`. `newMessage` is cleared and nothing else changes. |
| Client.FileIsSentAndKept | video-calling-app/client/src/App.js:251-267 | A picked file emits `sendFile {from, to, fileName, fileType, data}` with `from` the own id and no other keys, and appends the same envelope to `messages`. With no file nothing happens. |
| Client.ReceivedMessageIsAppended | video-calling-app/client/src/App.js:98-100 | An inbound `message` grows the history by one at the end and leaves earlier entries and all other state untouched. |
| Client.TogglesFlipTheirFlag | video-calling-app/client/src/App.js:194-207 | Without a stream both toggles do nothing. Otherwise they negate `isAudioOn`, or `isVideoOn` when there is a video track. Toggling twice restores the state, and neither toggle emits. |
| Client.HistoryIsAppendOnly | video-calling-app/client/src/App.js:98-100 | Over any sequence of handler runs, the old chat history stays a prefix of the new one, and it gains at most one entry per input. |
| Client.RunEmitsKnownEvents | video-calling-app/client/src/App.js:108-267 | Over any run, the client emits at most one event per input, only under its seven event names, and never `startScreenShare` or `sendICECandidate`. |
| ClientApp.App.constructor | video-calling-app/client/src/App.js:62-75 | A fresh component has every `useState` at its initial value and no peer. |
| ClientApp.App.OnMediaReady | video-calling-app/client/src/App.js:81-89 | Once media is granted, the stream is stored and both flags are off. |
| ClientApp.App.OnYourId | video-calling-app/client/src/App.js:93-96 | The `yourID` listener stores the id. |
| ClientApp.App.OnMessage | video-calling-app/client/src/App.js:98-100 | The `message` listener appends in place. |
| ClientApp.App.HandleIncomingCall | video-calling-app/client/src/App.js:109-118 | Does the busy reject or records the caller in place, and returns the emissions `Client.IncomingCall` gives. |
| ClientApp.App.HandleCallAccepted | video-calling-app/client/src/App.js:120-125 | Sets `isCallAccepted` and hands the answer to the current peer, if there is one. |
| ClientApp.App.DestroyConnection | video-calling-app/client/src/App.js:127-134 | Nulls the peer and resets the call fields in place. |
| ClientApp.App.InitiateCall | video-calling-app/client/src/App.js:158-172 | With a non-blank id, stores an initiating peer. |
| ClientApp.App.AnswerCall | video-calling-app/client/src/App.js:174-186 | Accepts the call and stores an answering peer that was given the caller's offer. |
| ClientApp.App.OnPeerSignal | video-calling-app/client/src/App.js:164-166 | The `signal` callback of a peer, current or replaced, changes no state. It returns `callUser` with the callee and id that peer captured for an initiator, or `answerCall {signal, to}` for an answerer. |
| ClientApp.App.EndCall | video-calling-app/client/src/App.js:188-191 | Returns `endCall {to: incomingCallInfo.from}` and then destroys the connection. |
| ClientApp.App.ToggleVideo | video-calling-app/client/src/App.js:194-201 | Flips `isVideoOn` in place when there is a stream with a video track. |
| ClientApp.App.ToggleAudio | video-calling-app/client/src/App.js:203-207 | Flips `isAudioOn` in place when there is a stream. |
| ClientApp.App.OnScreenShareStarted | video-calling-app/client/src/App.js:210-226 | A successful capture sets `isScreenSharing` and emits nothing. With a peer but no local stream, `stream.getVideoTracks()` throws inside the `try`, so the flag stays unset and nothing changes. |
| ClientApp.App.StopScreenShare | video-calling-app/client/src/App.js:228-239 | Clears `isScreenSharing`. When there is a peer (and a local stream), returns `stopScreenShare {to: userToCall}`. |
| ClientApp.App.OnStopScreenShare | video-calling-app/client/src/App.js:143-146 | The `stopScreenShare` listener clears the flag and toggles the camera. |
| ClientApp.App.SendMessage | video-calling-app/client/src/App.js:242-249 | Ignores a blank message, or else emits, appends and clears in place, as `Client.SendMessage` gives. |
| ClientApp.App.HandleFileUpload | video-calling-app/client/src/App.js:251-267 | Emits and appends the file envelope in place, as `Client.FileUpload` gives. |
| ClientApp.App.SetNewMessage | video-calling-app/client/src/App.js:338 | The message box's `onChange` stores the text. |
| ClientApp.App.SetUserToCall | video-calling-app/client/src/App.js:577 | The id box's `onChange` stores the text. |
| Session.Listen | video-calling-app/client/src/App.js:93-146 | Only `yourID`, `message`, `incomingCall`, `callAccepted`, `callEnded` and `stopScreenShare` have listeners; any other event, `screenShareStopped` included, changes nothing. The only reply a listener emits is a busy client's single `rejectCall`. Only `message` touches the chat history. No listener changes the typed id or message. |
| Session.Relay | video-calling-app/server/server.js:37-81 | A client emission that is not an object is relayed nowhere. A relayed one goes to a live id that the emission's own envelope named. |
| Session.RejectCallIsDropped | video-calling-app/client/src/App.js:112 | A busy client's one emission is `rejectCall`, and the server relays it to nobody. |
| Session.StopScreenShareListenerIsDead | video-calling-app/client/src/App.js:143-146 | No event the server delivers is named `stopScreenShare`, so this listener never runs. |
| Session.ScreenShareStoppedIsIgnored | video-calling-app/server/server.js:66-69 | The server delivers `screenShareStopped` with no argument, and the client has no listener for it: no state changes. |
| Session.HangUpWithoutCallerIsDropped | video-calling-app/client/src/App.js:188-191 | With no caller recorded (the calling side never receives `incomingCall`), `endCall` goes out as `{}`, and the server delivers it to nobody. |
| Session.ChatRoundTrip | video-calling-app/server/server.js:72-75 | A non-blank message sent to a live peer reaches it as `message`. The peer's history then ends with exactly the object the sender appended to its own. |
| Session.FileRoundTrip | video-calling-app/server/server.js:78-81 | A file sent to a live peer arrives as the same envelope the sender keeps in its history. |
| Session.OfferReachesCallee | video-calling-app/client/src/App.js:163-166 | The initiating peer's signal leaves as `callUser` and the server delivers it to the callee as `incomingCall` with exactly the caller's id and the offer. |
| Session.AnswerReachesCaller | video-calling-app/client/src/App.js:177-179 | The answering peer's signal leaves as `answerCall` to the caller recorded in `incomingCallInfo.from`, and the server delivers the bare answer to that caller as `callAccepted`. |
| Session.CallHandshake | video-calling-app/client/src/App.js:158-186 | Call, relay, incoming call, answer, relay, call accepted. Each client runs the listener for the event name the server actually delivered. Afterwards both sides are in the call, the callee's peer was given exactly the caller's offer, and the caller's peer exactly the callee's answer. |
| Session.CalleeHangUpReachesCaller | video-calling-app/client/src/App.js:188-191 | The callee's hang-up emits `endCall {to: caller}`. The server delivers it to the live caller as `callEnded`, whose listener tears the caller's call down, and the callee is left with no call and no peer. |

## Left out

- Rendering, Chakra UI, the theme, toasts, and drag and drop (`handleDrop` only passes the first dropped file to `handleFileUpload`): presentation.
- Media capture:
  - what stays: `OnMediaReady` records the stream and both flags;
  - what is left out: `getUserMedia`, `getDisplayMedia`, enabling tracks, `replaceTrack`, and the capture error paths (browser APIs).
- ClientApp.App.OnPeerSignal: the signalling peer's role is part of the input, and the model does not check that this client created a peer in that role. A replaced peer is never destroyed, so the model does not track which replaced peers are still live.
- SimplePeer: what the peer does with a signal is outside this model. A peer is its role, the values its callback captured, and the signals given to it. The offer or answer it produces, and its `close` event, are inputs (`OnPeerSignal`, `OnDestroy`). The library is external.
- The peer's `stream` event (App.js:167-169, 180-182): it only attaches the remote video to a video element, which is presentation.
- FileReader: the read is asynchronous, but the model treats `onload` as running at once, with the file's data as its result. The reader is an external browser API.
- socket.io transport, reconnection, and the room machinery: the live connections are a set of ids, and each step is atomic. Concurrency between connections is not modelled.
- The HTTP health route, CORS, port configuration, and all console logging: I/O plumbing.
- `video-calling-app/public/script.js` is not part of this model. It is PeerJS glue whose event names match no server handler.
- Server.Route: a target field holding an array of ids is not modelled. socket.io would deliver to several rooms, so the model only shows at most one delivery for string targets.
- Server.Route: an inbound argument that is not an object is not modelled. A string or number has no `to` or `userToCall`, so `io.to(undefined)` delivers nothing. `undefined` or `null` makes the property read throw, and nothing in server.js catches that. Every emission App.js makes is an object, so the model takes envelopes to be objects.
- Session.Listen: a `yourID` argument that is not a string is ignored rather than stored. In `incomingCall`, an opaque object argument is read as having no `from` or `signal`.
- ClientApp.App.OnStopScreenShare: the model uses the current state. The source's listener calls a stale `toggleVideo`: its effect's dependency list omits it, so it captured `stream` and `isVideoOn` from an earlier render.
- ClientApp.App.StopScreenShare: the stream the track swap reads (`connectionRef.current.streams[0]`, the peer's local streams) is taken to exist. It is missing when the peer was created before `getUserMedia` resolved, and then the call throws before emitting.
- Stale closures in general: every handler reads the current state. React may hand a handler values from an earlier render.
