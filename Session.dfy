/**
 * The client of video-calling-app/client/src/App.js and the relay of
 * video-calling-app/server/server.js put together: what a client's emission
 * turns into at the server, and what the delivered event does at the other
 * client.  Two event names do not match between the two files: the client's
 * `rejectCall` has no handler on the server, and the server's
 * `screenShareStopped` has no listener on the client, which listens for
 * `stopScreenShare` instead.
 */
module Session {
  import opened Wrappers
  import opened Wire
  import opened JsString
  import Server
  import opened Client

  /**
   * The client's `socket.on` listeners.  `incomingCall` destructures its
   * argument, which throws (and so changes nothing) when the argument is
   * missing or `undefined`; a value that is not an object has no `from` or
   * `signal`.  Events without a listener are ignored.
   */
  function Listen(s: ClientState, event: string, p: Payload): (r: Outcome)
    ensures event !in {"yourID", "message", "incomingCall", "callAccepted", "callEnded", "stopScreenShare"} ==> r == Outcome(s, [])
    ensures r.emits != [] ==> event == "incomingCall" && s.isCallAccepted && r.state == s && |r.emits| == 1 && r.emits[0].event == "rejectCall"
    ensures event != "message" ==> r.state.messages == s.messages
    ensures r.state.userToCall == s.userToCall && r.state.newMessage == s.newMessage
  {
    match event
    case "yourID" => if p.Value? && p.v.Some? && p.v.value.Text? then ReceiveId(s, p.v.value.s) else Outcome(s, [])
    case "message" => ReceiveMessage(s, p)
    case "incomingCall" =>
      (match p
       case Obj(m) => IncomingCall(s, Get(m, "from"), Get(m, "signal"))
       case Value(Some(_)) => IncomingCall(s, None, None)
       case _ => Outcome(s, []))
    case "callAccepted" => CallAccepted(s, p)
    case "callEnded" => Destroy(s)
    case "stopScreenShare" => ScreenShareStopNotice(s)
    case _ => Outcome(s, [])
  }

  /** What the server does with one client emission: every client emits an object. */
  function Relay(e: Emit, connected: set<Server.Id>): (r: Option<Server.Delivery>)
    ensures !e.payload.Obj? ==> r == None
    ensures r.Some? ==> r.value.target in connected && Text(r.value.target) in e.payload.fields.Values
  {
    if e.payload.Obj? then Server.Route(e.event, e.payload.fields, connected) else None
  }

  /** A busy callee's `rejectCall` reaches nobody, so the caller is never told the call was refused. */
  lemma RejectCallIsDropped(s: ClientState, from: Option<Datum>, signal: Option<Datum>, connected: set<Server.Id>)
    requires s.isCallAccepted
    ensures |IncomingCall(s, from, signal).emits| == 1
    ensures IncomingCall(s, from, signal).emits[0].event == "rejectCall"
    ensures Relay(IncomingCall(s, from, signal).emits[0], connected) == None
  {
  }

  /** No relayed event is ever named `stopScreenShare`, so the client's listener for it never runs. */
  lemma StopScreenShareListenerIsDead(kind: string, env: Fields, connected: set<Server.Id>)
    ensures forall d :: Server.Route(kind, env, connected) == Some(d) ==> d.event != "stopScreenShare"
  {
  }

  /**
   * A screen-share stop that the server does relay arrives as `screenShareStopped`,
   * which the client ignores.
   */
  lemma ScreenShareStoppedIsIgnored(s: ClientState, env: Fields, connected: set<Server.Id>, peer: Server.Id)
    requires "to" in env && env["to"] == Text(peer) && peer in connected
    ensures Server.Route("stopScreenShare", env, connected) == Some(Server.Delivery(peer, "screenShareStopped", NoArg))
    ensures Listen(s, "screenShareStopped", NoArg) == Outcome(s, [])
  {
  }

  /**
   * A client that has no caller recorded (as on the calling side, which never
   * gets `incomingCall`) sends `endCall` without `to`, and the server drops it.
   */
  lemma HangUpWithoutCallerIsDropped(s: ClientState, connected: set<Server.Id>)
    requires s.incomingCallInfo.from == None
    ensures EndCall(s).emits == [Emit("endCall", Obj(map[]))]
    ensures Relay(EndCall(s).emits[0], connected) == None
  {
  }

  /**
   * The callee, which has the caller recorded, hangs up: `endCall { to: caller }`
   * reaches the live caller as `callEnded`, and the caller's connection is torn down.
   */
  lemma CalleeHangUpReachesCaller(s: ClientState, caller: ClientState, x: Server.Id, connected: set<Server.Id>)
    requires s.incomingCallInfo.from == Some(Text(x)) && x in connected
    ensures EndCall(s).emits == [Emit("endCall", Obj(map["to" := Text(x)]))]
    ensures Relay(EndCall(s).emits[0], connected) == Some(Server.Delivery(x, "callEnded", NoArg))
    ensures Listen(caller, Relay(EndCall(s).emits[0], connected).value.event, NoArg) == Destroy(caller)
    ensures !EndCall(s).state.isCallAccepted && EndCall(s).state.connection == None
  {
  }

  /**
   * Chat end to end: a non-blank message sent by A to a live B is delivered
   * to B as `message`, and B's history then ends with exactly the object that
   * A's history ends with.
   */
  lemma ChatRoundTrip(a: ClientState, b: ClientState, connected: set<Server.Id>, bId: Server.Id)
    requires !AllWhiteSpace(a.newMessage)
    requires Recipient(a) == Some(Text(bId)) && bId in connected
    ensures var sent := SendMessage(a);
      && |sent.emits| == 1
      && Relay(sent.emits[0], connected) == Some(Server.Delivery(bId, "message", Obj(MessageData(a))))
      && var got := Listen(b, "message", Relay(sent.emits[0], connected).value.payload).state;
      && got.messages == b.messages + [sent.state.messages[|sent.state.messages| - 1]]
      && got.messages[|got.messages| - 1] == Obj(MessageData(a))
  {
  }

  /** A file sent by A to a live B arrives as the same envelope A keeps in its history. */
  lemma FileRoundTrip(a: ClientState, b: ClientState, f: FileInfo, connected: set<Server.Id>, bId: Server.Id)
    requires Recipient(a) == Some(Text(bId)) && bId in connected
    ensures var sent := FileUpload(a, Some(f));
      && Relay(sent.emits[0], connected) == Some(Server.Delivery(bId, "message", Obj(FileData(a, f))))
      && Listen(b, "message", Obj(FileData(a, f))).state.messages == b.messages + [sent.state.messages[|sent.state.messages| - 1]]
  {
  }

  /** The caller's offer, once its peer signals, reaches the callee as `incomingCall` with `from` and `signal`. */
  lemma OfferReachesCallee(a: ClientState, aId: Server.Id, bId: Server.Id, connected: set<Server.Id>, offer: Datum)
    requires a.userId == aId && a.userToCall == bId && !AllWhiteSpace(bId)
    requires bId in connected
    ensures Relay(PeerSignal(InitiateCall(a).state, InitiateCall(a).state.connection.value.role, offer).emits[0], connected)
         == Some(Server.Delivery(bId, "incomingCall", Obj(map["from" := Text(aId), "signal" := offer])))
  {
    CalleeGetsInitiator(a, offer);
    var env := map["userToCall" := Text(bId), "from" := Text(aId), "signal" := offer];
    assert Pick(env, {"from", "signal"}) == map["from" := Text(aId), "signal" := offer];
  }

  /** The callee's answer, once its peer signals, reaches the caller named in the call as `callAccepted`. */
  lemma AnswerReachesCaller(b: ClientState, aId: Server.Id, connected: set<Server.Id>, answer: Datum)
    requires b.incomingCallInfo.from == Some(Text(aId)) && aId in connected
    ensures Relay(PeerSignal(AnswerCall(b).state, AnswerCall(b).state.connection.value.role, answer).emits[0], connected)
         == Some(Server.Delivery(aId, "callAccepted", Value(Some(answer))))
  {
    var back := map["signal" := answer, "to" := Text(aId)];
    assert PeerSignal(AnswerCall(b).state, AnswerCall(b).state.connection.value.role, answer).emits[0] == Emit("answerCall", Obj(back));
  }

  /**
   * Call set-up end to end.  A (id `aId`) has typed B's id `bId` and clicks
   * Call; A's peer produces `offer`; B, not in a call, is told of the call,
   * clicks Answer and its peer produces `answer`.  Then both are in the call,
   * B's peer was given exactly A's offer and A's peer exactly B's answer.
   */
  lemma CallHandshake(a: ClientState, b: ClientState, aId: Server.Id, bId: Server.Id,
                      connected: set<Server.Id>, offer: Datum, answer: Datum)
    requires a.userId == aId && a.userToCall == bId && !AllWhiteSpace(bId)
    requires !b.isCallAccepted
    requires aId in connected && bId in connected
    ensures
      var a1 := InitiateCall(a).state;
      var callUser := PeerSignal(a1, a1.connection.value.role, offer).emits[0];
      var incoming := Relay(callUser, connected);
      incoming.Some? && incoming.value.target == bId &&
      var b1 := Listen(b, incoming.value.event, incoming.value.payload).state;
      b1.incomingCallInfo == CallInfo(true, Some(Text(aId)), Some(offer)) &&
      var b2 := AnswerCall(b1).state;
      var answerCall := PeerSignal(b2, b2.connection.value.role, answer).emits[0];
      var accepted := Relay(answerCall, connected);
      accepted.Some? && accepted.value.target == aId &&
      var a2 := Listen(a1, accepted.value.event, accepted.value.payload).state;
      && a2.isCallAccepted && b2.isCallAccepted
      && b2.connection == Some(Peer(Answerer(Some(Text(aId))), [Value(Some(offer))]))
      && a2.connection == Some(Peer(Initiator(bId, aId), [Value(Some(answer))]))
  {
    var a1 := InitiateCall(a).state;
    OfferReachesCallee(a, aId, bId, connected, offer);
    var b1 := Listen(b, "incomingCall", Obj(map["from" := Text(aId), "signal" := offer])).state;
    assert b1.incomingCallInfo == CallInfo(true, Some(Text(aId)), Some(offer));
    AnswerReachesCaller(b1, aId, connected, answer);
    CalleeGetsInitiator(a, offer);
    assert a1.connection.value.fed + [Value(Some(answer))] == [Value(Some(answer))];
  }
}
