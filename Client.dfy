/**
 * The call and chat state machine of video-calling-app/client/src/App.js, as
 * values: the component's state, and one function per handler giving the new
 * state and the socket emissions the handler performs, in order.
 *
 * `connection` stands for `connectionRef.current`.  A SimplePeer object is
 * external; the model keeps of it what the handlers decide: whether it was
 * created by `initiateCall` or `answerCall`, the values its `signal` callback
 * closed over, and the signals handed to it with `peer.signal(...)`.
 */
module Client {
  import opened Wrappers
  import opened Wire
  import opened JsString

  /** The local media stream; only whether it has a video track matters here. */
  datatype Stream = Stream(hasVideoTrack: bool)

  /**
   * `incomingCallInfo`: the empty object `{}` or `{ isSomeoneCalling: true, from, signal }`,
   * where `from` and `signal` may be `undefined`.
   */
  datatype CallInfo = CallInfo(isSomeoneCalling: bool, from: Option<Datum>, signal: Option<Datum>)

  const NoCallInfo := CallInfo(false, None, None)

  /** Which handler created the peer, with the state its `signal` callback captured. */
  datatype Role =
    | Initiator(userToCall: string, from: string)   // initiateCall
    | Answerer(to: Option<Datum>)                   // answerCall

  /** A peer connection: its role and the remote signals passed to `peer.signal`, oldest first. */
  datatype Peer = Peer(role: Role, fed: seq<Payload>)

  datatype ClientState = ClientState(
    stream: Option<Stream>,
    userId: string,
    userToCall: string,
    isCallAccepted: bool,
    isScreenSharing: bool,
    incomingCallInfo: CallInfo,
    isVideoOn: bool,
    isAudioOn: bool,
    messages: seq<Payload>,
    newMessage: string,
    connection: Option<Peer>)

  /** A handler's effect: the new state and the events emitted on the socket. */
  datatype Outcome = Outcome(state: ClientState, emits: seq<Emit>)

  /** The state of a freshly mounted component (the `useState` initial values). */
  const Initial := ClientState(None, "", "", false, false, NoCallInfo, false, false, [], "", None)

  /** `userToCall || incomingCallInfo.from`: the typed id if non-empty, else the caller's id. */
  function Recipient(s: ClientState): Option<Datum> {
    if s.userToCall != "" then Some(Text(s.userToCall)) else s.incomingCallInfo.from
  }

  /** The object `{ from: userId, to: recipientId, text: newMessage }` of sendMessage. */
  function MessageData(s: ClientState): Fields {
    Put(map["from" := Text(s.userId), "text" := Text(s.newMessage)], "to", Recipient(s))
  }

  /** The file a user picked: its name, MIME type and the data URL the FileReader produced. */
  datatype FileInfo = FileInfo(name: string, fileType: string, data: Datum)

  /** The object `{ from, to, fileName, fileType, data }` of handleFileUpload. */
  function FileData(s: ClientState, f: FileInfo): Fields {
    Put(map["from" := Text(s.userId), "fileName" := Text(f.name), "fileType" := Text(f.fileType), "data" := f.data],
        "to", Recipient(s))
  }

  // ---- Handlers ----

  /** The getUserMedia success path: the stream is stored and both tracks start disabled. */
  function MediaReady(s: ClientState, st: Stream): Outcome {
    Outcome(s.(stream := Some(st), isVideoOn := false, isAudioOn := false), [])
  }

  /** The `yourID` listener. */
  function ReceiveId(s: ClientState, id: string): Outcome {
    Outcome(s.(userId := id), [])
  }

  /** The `message` listener: the payload is appended to the chat history. */
  function ReceiveMessage(s: ClientState, msg: Payload): Outcome {
    Outcome(s.(messages := s.messages + [msg]), [])
  }

  /** handleIncomingCall: reject while in a call, otherwise remember who is calling. */
  function IncomingCall(s: ClientState, from: Option<Datum>, signal: Option<Datum>): Outcome {
    if s.isCallAccepted then Outcome(s, [Emit("rejectCall", Obj(Put(map[], "to", from)))])
    else Outcome(s.(incomingCallInfo := CallInfo(true, from, signal)), [])
  }

  /** handleCallAccepted: the call is on, and the answer is handed to the peer if there is one. */
  function CallAccepted(s: ClientState, signal: Payload): Outcome {
    var c := if s.connection.Some? then Some(s.connection.value.(fed := s.connection.value.fed + [signal])) else None;
    Outcome(s.(isCallAccepted := true, connection := c), [])
  }

  /** destroyConnection: the peer is dropped and the call state reset. */
  function Destroy(s: ClientState): Outcome {
    Outcome(s.(connection := None, isCallAccepted := false, incomingCallInfo := NoCallInfo), [])
  }

  /** initiateCall: with a non-blank id an initiating peer is created; its offer is emitted later. */
  function InitiateCall(s: ClientState): Outcome {
    if IsBlank(s.userToCall) then Outcome(s, [])
    else Outcome(s.(connection := Some(Peer(Initiator(s.userToCall, s.userId), []))), [])
  }

  /** answerCall: the call is on and an answering peer is created and given the caller's offer. */
  function AnswerCall(s: ClientState): Outcome {
    var peer := Peer(Answerer(s.incomingCallInfo.from), [Value(s.incomingCallInfo.signal)]);
    Outcome(s.(isCallAccepted := true, connection := Some(peer)), [])
  }

  /**
   * The `signal` callback of a peer in role `peer`: the initiator sends `callUser`, the
   * answerer `answerCall`, each with the values its closure captured.  The peer need not
   * be the current one: `initiateCall` and `answerCall` overwrite `connectionRef.current`
   * without destroying the peer it held, so a replaced peer can still signal.
   */
  function PeerSignal(s: ClientState, peer: Role, signal: Datum): Outcome {
    match peer
    case Initiator(callee, from) =>
      Outcome(s, [Emit("callUser", Obj(map["userToCall" := Text(callee), "from" := Text(from), "signal" := signal]))])
    case Answerer(to) =>
      Outcome(s, [Emit("answerCall", Obj(Put(map["signal" := signal], "to", to)))])
  }

  /** endCall: `endCall { to: incomingCallInfo.from }`, then destroyConnection. */
  function EndCall(s: ClientState): Outcome {
    Outcome(Destroy(s).state, [Emit("endCall", Obj(Put(map[], "to", s.incomingCallInfo.from)))])
  }

  /** toggleVideo: flips the camera flag when there is a stream with a video track. */
  function ToggleVideo(s: ClientState): Outcome {
    if s.stream.None? || !s.stream.value.hasVideoTrack then Outcome(s, [])
    else Outcome(s.(isVideoOn := !s.isVideoOn), [])
  }

  /** toggleAudio: flips the microphone flag when there is a stream. */
  function ToggleAudio(s: ClientState): Outcome {
    if s.stream.None? then Outcome(s, [])
    else Outcome(s.(isAudioOn := !s.isAudioOn), [])
  }

  /**
   * startScreenShare after getDisplayMedia succeeded: nothing is emitted, and the flag is set
   * unless there is a peer but no local stream, where the track swap throws inside the `try`.
   */
  function ScreenShareStarted(s: ClientState): Outcome {
    if s.connection.Some? && s.stream.None? then Outcome(s, [])
    else Outcome(s.(isScreenSharing := true), [])
  }

  /**
   * stopScreenShare: the flag is cleared; with a peer, `stopScreenShare { to: userToCall }`
   * is emitted after the track swap, which needs the local stream.
   */
  function StopScreenShare(s: ClientState): Outcome {
    var t := s.(isScreenSharing := false);
    if s.connection.Some? && s.stream.Some? then Outcome(t, [Emit("stopScreenShare", Obj(map["to" := Text(s.userToCall)]))])
    else Outcome(t, [])
  }

  /** The `stopScreenShare` listener: the flag is cleared and the camera toggled. */
  function ScreenShareStopNotice(s: ClientState): Outcome {
    ToggleVideo(s.(isScreenSharing := false))
  }

  /** sendMessage: a non-blank message is emitted, added to the history and the input cleared. */
  function SendMessage(s: ClientState): Outcome {
    if IsBlank(s.newMessage) then Outcome(s, [])
    else
      var m := MessageData(s);
      Outcome(s.(messages := s.messages + [Obj(m)], newMessage := ""), [Emit("sendMessage", Obj(m))])
  }

  /** handleFileUpload and its FileReader `onload`: the file envelope is emitted and added to the history. */
  function FileUpload(s: ClientState, file: Option<FileInfo>): Outcome {
    match file
    case None => Outcome(s, [])
    case Some(f) =>
      var m := FileData(s, f);
      Outcome(s.(messages := s.messages + [Obj(m)]), [Emit("sendFile", Obj(m))])
  }

  /** The `onChange` of the message box. */
  function TypeMessage(s: ClientState, text: string): Outcome {
    Outcome(s.(newMessage := text), [])
  }

  /** The `onChange` of the "User ID to call" box. */
  function TypeUserToCall(s: ClientState, text: string): Outcome {
    Outcome(s.(userToCall := text), [])
  }

  // ---- Runs of the component ----

  /** Everything that makes a handler run: a socket event, a peer callback, a click or an edit. */
  datatype Input =
    | OnMedia(st: Stream)                          // getUserMedia resolved
    | OnYourId(id: string)                         // socket `yourID`
    | OnMessage(msg: Payload)                      // socket `message`
    | OnIncomingCall(from: Option<Datum>, signal: Option<Datum>)  // socket `incomingCall`
    | OnCallAccepted(answer: Payload)              // socket `callAccepted`
    | OnDestroy                                    // socket `callEnded`, peer `close`, or the Reject button
    | ClickCall                                    // initiateCall
    | ClickAnswer                                  // answerCall
    | OnPeerSignal(signaller: Role, local: Datum)  // the `signal` event of a peer this client created
    | ClickEndCall                                 // endCall
    | ClickVideo                                   // toggleVideo
    | ClickAudio                                   // toggleAudio
    | OnScreenShareStarted                         // getDisplayMedia resolved
    | ClickStopShare                               // stopScreenShare
    | OnStopShareNotice                            // socket `stopScreenShare`
    | ClickSend                                    // sendMessage
    | OnFile(file: Option<FileInfo>)               // handleFileUpload, then FileReader `onload`
    | EditMessage(text: string)                    // message box onChange
    | EditUserToCall(text: string)                 // id box onChange

  /** The handler that `i` runs. */
  function Step(s: ClientState, i: Input): Outcome {
    match i
    case OnMedia(st) => MediaReady(s, st)
    case OnYourId(id) => ReceiveId(s, id)
    case OnMessage(msg) => ReceiveMessage(s, msg)
    case OnIncomingCall(from, signal) => IncomingCall(s, from, signal)
    case OnCallAccepted(answer) => CallAccepted(s, answer)
    case OnDestroy => Destroy(s)
    case ClickCall => InitiateCall(s)
    case ClickAnswer => AnswerCall(s)
    case OnPeerSignal(signaller, local) => PeerSignal(s, signaller, local)
    case ClickEndCall => EndCall(s)
    case ClickVideo => ToggleVideo(s)
    case ClickAudio => ToggleAudio(s)
    case OnScreenShareStarted => ScreenShareStarted(s)
    case ClickStopShare => StopScreenShare(s)
    case OnStopShareNotice => ScreenShareStopNotice(s)
    case ClickSend => SendMessage(s)
    case OnFile(file) => FileUpload(s, file)
    case EditMessage(text) => TypeMessage(s, text)
    case EditUserToCall(text) => TypeUserToCall(s, text)
  }

  /** The state after the inputs `ins`, one handler at a time, and everything emitted, in order. */
  function Run(s: ClientState, ins: seq<Input>): Outcome
    decreases |ins|
  {
    if ins == [] then Outcome(s, [])
    else
      var first := Step(s, ins[0]);
      var rest := Run(first.state, ins[1..]);
      Outcome(rest.state, first.emits + rest.emits)
  }

  /** The event names this client emits. */
  const EmittedEvents: set<string> :=
    {"rejectCall", "callUser", "answerCall", "endCall", "stopScreenShare", "sendMessage", "sendFile"}

  // ---- Properties of single handlers ----

  /** While in a call, an incoming call is answered with exactly `rejectCall { to: from }` and nothing changes. */
  lemma BusyRejectsIncomingCall(s: ClientState, from: Option<Datum>, signal: Option<Datum>)
    requires s.isCallAccepted
    ensures IncomingCall(s, from, signal).state == s
    ensures IncomingCall(s, from, signal).emits == [Emit("rejectCall", Obj(Put(map[], "to", from)))]
    ensures IncomingCall(s, from, signal).emits[0].payload.fields.Keys <= {"to"}
  {
  }

  /** When not in a call, an incoming call is recorded with its caller and offer and nothing is emitted. */
  lemma IdleRecordsIncomingCall(s: ClientState, from: Option<Datum>, signal: Option<Datum>)
    requires !s.isCallAccepted
    ensures IncomingCall(s, from, signal) == Outcome(s.(incomingCallInfo := CallInfo(true, from, signal)), [])
  {
  }

  /** destroyConnection always leaves no call, no caller and no peer, and a second call changes nothing. */
  lemma DestroyResetsAndIsIdempotent(s: ClientState)
    ensures !Destroy(s).state.isCallAccepted
    ensures Destroy(s).state.incomingCallInfo == NoCallInfo && Destroy(s).state.connection == None
    ensures Destroy(s).emits == []
    ensures Destroy(Destroy(s).state) == Destroy(s)
    ensures Destroy(s).state.messages == s.messages && Destroy(s).state.userToCall == s.userToCall
  {
  }

  /** A blank or white-space-only id creates no peer and causes no `callUser`. */
  lemma BlankCalleeIsIgnored(s: ClientState)
    requires AllWhiteSpace(s.userToCall)
    ensures InitiateCall(s) == Outcome(s, [])
  {
  }

  /** Any other id creates an initiating peer that will send its offer to exactly that id from this user. */
  lemma CalleeGetsInitiator(s: ClientState, offer: Datum)
    requires !AllWhiteSpace(s.userToCall)
    ensures InitiateCall(s).emits == []
    ensures InitiateCall(s).state.connection == Some(Peer(Initiator(s.userToCall, s.userId), []))
    ensures PeerSignal(InitiateCall(s).state, InitiateCall(s).state.connection.value.role, offer).emits ==
      [Emit("callUser", Obj(map["userToCall" := Text(s.userToCall), "from" := Text(s.userId), "signal" := offer]))]
  {
  }

  /**
   * A peer replaced before it signals still calls the callee it was created for, with this
   * user's id: answering another caller, or calling again after retyping the id, does not
   * redirect the first offer.
   */
  lemma ReplacedPeerKeepsItsCallee(s: ClientState, caller: Option<Datum>, callerOffer: Option<Datum>, retyped: string, offer: Datum)
    requires !AllWhiteSpace(s.userToCall) && !AllWhiteSpace(retyped) && !s.isCallAccepted
    ensures var s1 := InitiateCall(s).state;
      var first := s1.connection.value.role;
      var answered := AnswerCall(IncomingCall(s1, caller, callerOffer).state).state;
      var recalled := InitiateCall(TypeUserToCall(s1, retyped).state).state;
      && answered.connection.value.role == Answerer(caller)
      && recalled.connection.value.role == Initiator(retyped, s.userId)
      && PeerSignal(answered, first, offer).emits == PeerSignal(recalled, first, offer).emits
      && PeerSignal(recalled, first, offer).emits ==
           [Emit("callUser", Obj(map["userToCall" := Text(s.userToCall), "from" := Text(s.userId), "signal" := offer]))]
  {
  }

  /** A white-space-only message changes nothing and emits nothing. */
  lemma BlankMessageIsIgnored(s: ClientState)
    requires AllWhiteSpace(s.newMessage)
    ensures SendMessage(s) == Outcome(s, [])
  {
  }

  /**
   * Any other message is emitted as `{ from: userId, to: userToCall || incomingCallInfo.from, text }`;
   * the same object is appended to the history and the input box is cleared.
   */
  lemma MessageIsSentAndKept(s: ClientState)
    requires !AllWhiteSpace(s.newMessage)
    ensures var o := SendMessage(s);
      && o.emits == [Emit("sendMessage", Obj(MessageData(s)))]
      && o.state == s.(messages := s.messages + [Obj(MessageData(s))], newMessage := "")
    ensures Get(MessageData(s), "from") == Some(Text(s.userId))
    ensures Get(MessageData(s), "to") == Recipient(s)
    ensures Get(MessageData(s), "text") == Some(Text(s.newMessage))
    ensures MessageData(s).Keys <= {"from", "to", "text"}
  {
  }

  /** A picked file is emitted as `sendFile` and the same envelope is appended to the history. */
  lemma FileIsSentAndKept(s: ClientState, f: FileInfo)
    ensures FileUpload(s, Some(f)) == Outcome(s.(messages := s.messages + [Obj(FileData(s, f))]), [Emit("sendFile", Obj(FileData(s, f)))])
    ensures Get(FileData(s, f), "to") == Recipient(s) && Get(FileData(s, f), "data") == Some(f.data)
    ensures Get(FileData(s, f), "fileName") == Some(Text(f.name)) && Get(FileData(s, f), "fileType") == Some(Text(f.fileType))
    ensures Get(FileData(s, f), "from") == Some(Text(s.userId))
    ensures FileData(s, f).Keys <= {"from", "to", "fileName", "fileType", "data"}
    ensures FileUpload(s, None) == Outcome(s, [])
  {
  }

  /** An inbound message goes to the end of the history; earlier messages are untouched. */
  lemma ReceivedMessageIsAppended(s: ClientState, msg: Payload)
    ensures var m := ReceiveMessage(s, msg).state.messages;
      |m| == |s.messages| + 1 && m[..|s.messages|] == s.messages && m[|s.messages|] == msg
    ensures ReceiveMessage(s, msg).state.(messages := s.messages) == s
  {
  }

  /** Without a stream the toggles do nothing; otherwise they negate their flag, and twice is no change. */
  lemma TogglesFlipTheirFlag(s: ClientState)
    ensures s.stream.None? ==> ToggleAudio(s).state == s && ToggleVideo(s).state == s
    ensures s.stream.Some? ==> ToggleAudio(s).state == s.(isAudioOn := !s.isAudioOn)
    ensures s.stream.Some? && s.stream.value.hasVideoTrack ==> ToggleVideo(s).state == s.(isVideoOn := !s.isVideoOn)
    ensures ToggleAudio(ToggleAudio(s).state).state == s && ToggleVideo(ToggleVideo(s).state).state == s
    ensures ToggleAudio(s).emits == [] && ToggleVideo(s).emits == []
  {
  }

  // ---- Properties of whole runs ----

  /** One handler appends at most one entry to the history and never alters earlier ones. */
  lemma StepKeepsHistory(s: ClientState, i: Input)
    ensures var m := Step(s, i).state.messages;
      |s.messages| <= |m| <= |s.messages| + 1 && m[..|s.messages|] == s.messages
  {
    match i
    case OnMessage(msg) => ReceivedMessageIsAppended(s, msg);
    case ClickSend =>
      if !IsBlank(s.newMessage) {
        assert (s.messages + [Obj(MessageData(s))])[..|s.messages|] == s.messages;
      }
    case OnFile(file) =>
      if file.Some? {
        assert (s.messages + [Obj(FileData(s, file.value))])[..|s.messages|] == s.messages;
      }
    case _ =>
  }

  /** The chat history is append-only: whatever was shown stays, in place, through any run. */
  lemma {:induction false} HistoryIsAppendOnly(s: ClientState, ins: seq<Input>)
    ensures var m := Run(s, ins).state.messages;
      |s.messages| <= |m| <= |s.messages| + |ins| && m[..|s.messages|] == s.messages
    decreases |ins|
  {
    if ins != [] {
      var first := Step(s, ins[0]).state;
      StepKeepsHistory(s, ins[0]);
      HistoryIsAppendOnly(first, ins[1..]);
      var m := Run(s, ins).state.messages;
      assert m[..|first.messages|] == first.messages;
      assert m[..|s.messages|] == m[..|first.messages|][..|s.messages|];
    }
  }

  /** Every handler emits at most one event, and only one of the names the client uses. */
  lemma StepEmitsAtMostOne(s: ClientState, i: Input)
    ensures |Step(s, i).emits| <= 1
    ensures forall e :: e in Step(s, i).emits ==> e.event in EmittedEvents
  {
  }

  /** Over any run the client never emits `startScreenShare` or `sendICECandidate`, only the names it uses. */
  lemma {:induction false} RunEmitsKnownEvents(s: ClientState, ins: seq<Input>)
    ensures |Run(s, ins).emits| <= |ins|
    ensures forall e :: e in Run(s, ins).emits ==> e.event in EmittedEvents
    ensures forall e :: e in Run(s, ins).emits ==> e.event != "startScreenShare" && e.event != "sendICECandidate"
    decreases |ins|
  {
    if ins != [] {
      StepEmitsAtMostOne(s, ins[0]);
      RunEmitsKnownEvents(Step(s, ins[0]).state, ins[1..]);
    }
  }
}
