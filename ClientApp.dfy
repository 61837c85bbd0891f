/**
 * The App component of video-calling-app/client/src/App.js as an object: its
 * `useState` variables and `connectionRef.current` are fields, and each handler
 * is a method that updates them in place and returns the events it emitted on
 * the socket.  Every method is proved to do what the matching function of
 * module Client says.
 */
module ClientApp {
  import opened Wrappers
  import opened Wire
  import opened JsString
  import Client

  class App {
    var stream: Option<Client.Stream>
    var userId: string
    var userToCall: string
    var isCallAccepted: bool
    var isScreenSharing: bool
    var incomingCallInfo: Client.CallInfo
    var isVideoOn: bool
    var isAudioOn: bool
    var messages: seq<Payload>
    var newMessage: string
    var connection: Option<Client.Peer>

    /** The component state as a value. */
    function Snapshot(): Client.ClientState
      reads this
    {
      Client.ClientState(stream, userId, userToCall, isCallAccepted, isScreenSharing, incomingCallInfo,
                         isVideoOn, isAudioOn, messages, newMessage, connection)
    }

    /** Mounting the component: every `useState` starts at its initial value and there is no peer. */
    constructor ()
      ensures Snapshot() == Client.Initial
    {
      stream := None;
      userId := "";
      userToCall := "";
      isCallAccepted := false;
      isScreenSharing := false;
      incomingCallInfo := Client.NoCallInfo;
      isVideoOn := false;
      isAudioOn := false;
      messages := [];
      newMessage := "";
      connection := None;
    }

    method OnMediaReady(st: Client.Stream)
      modifies this
      ensures Snapshot() == Client.MediaReady(old(Snapshot()), st).state
    {
      stream := Some(st);
      isVideoOn := false;
      isAudioOn := false;
    }

    method OnYourId(id: string)
      modifies this
      ensures Snapshot() == Client.ReceiveId(old(Snapshot()), id).state
    {
      userId := id;
    }

    method OnMessage(msg: Payload)
      modifies this
      ensures Snapshot() == Client.ReceiveMessage(old(Snapshot()), msg).state
    {
      messages := messages + [msg];
    }

    method HandleIncomingCall(from: Option<Datum>, signal: Option<Datum>) returns (emits: seq<Emit>)
      modifies this
      ensures Snapshot() == Client.IncomingCall(old(Snapshot()), from, signal).state
      ensures emits == Client.IncomingCall(old(Snapshot()), from, signal).emits
    {
      if isCallAccepted {
        emits := [Emit("rejectCall", Obj(Put(map[], "to", from)))];
        return;
      }
      incomingCallInfo := Client.CallInfo(true, from, signal);
      emits := [];
    }

    method HandleCallAccepted(signal: Payload)
      modifies this
      ensures Snapshot() == Client.CallAccepted(old(Snapshot()), signal).state
    {
      isCallAccepted := true;
      if connection.Some? {
        connection := Some(connection.value.(fed := connection.value.fed + [signal]));
      }
    }

    method DestroyConnection()
      modifies this
      ensures Snapshot() == Client.Destroy(old(Snapshot())).state
    {
      if connection.Some? {
        connection := None;
      }
      isCallAccepted := false;
      incomingCallInfo := Client.NoCallInfo;
    }

    method InitiateCall()
      modifies this
      ensures Snapshot() == Client.InitiateCall(old(Snapshot())).state
    {
      if IsBlank(userToCall) {
        return;
      }
      connection := Some(Client.Peer(Client.Initiator(userToCall, userId), []));
    }

    method AnswerCall()
      modifies this
      ensures Snapshot() == Client.AnswerCall(old(Snapshot())).state
    {
      isCallAccepted := true;
      // new SimplePeer({ initiator: false }), then peer.signal(incomingCallInfo.signal)
      connection := Some(Client.Peer(Client.Answerer(incomingCallInfo.from), [Value(incomingCallInfo.signal)]));
    }

    /**
     * The `signal` event of a peer this component created, current or replaced, with the
     * local offer or answer it produced; `peer` is what that peer's callback captured.
     */
    method OnPeerSignal(peer: Client.Role, signal: Datum) returns (emits: seq<Emit>)
      ensures emits == Client.PeerSignal(Snapshot(), peer, signal).emits
      ensures Client.PeerSignal(Snapshot(), peer, signal).state == Snapshot()
    {
      match peer
      case Initiator(callee, from) =>
        emits := [Emit("callUser", Obj(map["userToCall" := Text(callee), "from" := Text(from), "signal" := signal]))];
      case Answerer(to) =>
        emits := [Emit("answerCall", Obj(Put(map["signal" := signal], "to", to)))];
    }

    method EndCall() returns (emits: seq<Emit>)
      modifies this
      ensures Snapshot() == Client.EndCall(old(Snapshot())).state
      ensures emits == Client.EndCall(old(Snapshot())).emits
    {
      emits := [Emit("endCall", Obj(Put(map[], "to", incomingCallInfo.from)))];
      DestroyConnection();
    }

    method ToggleVideo()
      modifies this
      ensures Snapshot() == Client.ToggleVideo(old(Snapshot())).state
    {
      if stream.None? {
        return;
      }
      if stream.value.hasVideoTrack {
        isVideoOn := !isVideoOn;
      }
    }

    method ToggleAudio()
      modifies this
      ensures Snapshot() == Client.ToggleAudio(old(Snapshot())).state
    {
      if stream.None? {
        return;
      }
      isAudioOn := !isAudioOn;
    }

    method OnScreenShareStarted()
      modifies this
      ensures Snapshot() == Client.ScreenShareStarted(old(Snapshot())).state
    {
      if connection.Some? && stream.None? {
        return;  // stream.getVideoTracks() throws; the catch only logs
      }
      isScreenSharing := true;
    }

    method StopScreenShare() returns (emits: seq<Emit>)
      modifies this
      ensures Snapshot() == Client.StopScreenShare(old(Snapshot())).state
      ensures emits == Client.StopScreenShare(old(Snapshot())).emits
    {
      isScreenSharing := false;
      emits := [];
      if connection.Some? && stream.Some? {
        emits := [Emit("stopScreenShare", Obj(map["to" := Text(userToCall)]))];
      }
    }

    /** The `stopScreenShare` socket listener. */
    method OnStopScreenShare()
      modifies this
      ensures Snapshot() == Client.ScreenShareStopNotice(old(Snapshot())).state
    {
      isScreenSharing := false;
      ToggleVideo();
    }

    method SendMessage() returns (emits: seq<Emit>)
      modifies this
      ensures Snapshot() == Client.SendMessage(old(Snapshot())).state
      ensures emits == Client.SendMessage(old(Snapshot())).emits
    {
      if IsBlank(newMessage) {
        return [];
      }
      var recipientId := if userToCall != "" then Some(Text(userToCall)) else incomingCallInfo.from;
      var messageData := Put(map["from" := Text(userId), "text" := Text(newMessage)], "to", recipientId);
      emits := [Emit("sendMessage", Obj(messageData))];
      messages := messages + [Obj(messageData)];
      newMessage := "";
    }

    /** handleFileUpload; the FileReader's `onload` is taken to run at once with `file.data` as its result. */
    method HandleFileUpload(file: Option<Client.FileInfo>) returns (emits: seq<Emit>)
      modifies this
      ensures Snapshot() == Client.FileUpload(old(Snapshot()), file).state
      ensures emits == Client.FileUpload(old(Snapshot()), file).emits
    {
      if file.None? {
        return [];
      }
      var f := file.value;
      var recipientId := if userToCall != "" then Some(Text(userToCall)) else incomingCallInfo.from;
      var fileData := Put(map["from" := Text(userId), "fileName" := Text(f.name), "fileType" := Text(f.fileType),
                              "data" := f.data], "to", recipientId);
      emits := [Emit("sendFile", Obj(fileData))];
      messages := messages + [Obj(fileData)];
    }

    method SetNewMessage(text: string)
      modifies this
      ensures Snapshot() == Client.TypeMessage(old(Snapshot()), text).state
    {
      newMessage := text;
    }

    method SetUserToCall(text: string)
      modifies this
      ensures Snapshot() == Client.TypeUserToCall(old(Snapshot()), text).state
    {
      userToCall := text;
    }
  }
}
