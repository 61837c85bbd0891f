/**
 * The signalling relay of video-calling-app/server/server.js.
 *
 * Every connected socket is in the socket.io room named by its own id, and the
 * server keeps no other state, so the live connections are a set of ids.  Each
 * `socket.on` handler is one `io.to(target).emit(event, projection)`: the handlers
 * form a fixed table from inbound event name to outbound event name, the envelope
 * field that names the target, and the part of the envelope that is forwarded.
 */
module Server {
  import opened Wrappers
  import opened Wire

  /** A connection id (socket.id), which is also the name of the connection's room. */
  type Id = string

  /** Which part of the inbound envelope `data` the handler forwards. */
  datatype Projection =
    | WholeEnvelope   // data
    | FromAndSignal   // { from: data.from, signal: data.signal }
    | SignalOnly      // data.signal
    | CandidateOnly   // data.candidate
    | FromOnly        // { from: data.from }
    | NoPayload       // nothing

  /** One row of the dispatch table. */
  datatype Rule = Rule(outEvent: string, targetField: string, projection: Projection)

  /** One event sent by the server to one connection. */
  datatype Delivery = Delivery(target: Id, event: string, payload: Payload)

  /** The `socket.on` handlers registered for every connection; None for an event name with no handler. */
  function Handler(kind: string): Option<Rule> {
    match kind
    case "callUser" => Some(Rule("incomingCall", "userToCall", FromAndSignal))
    case "answerCall" => Some(Rule("callAccepted", "to", SignalOnly))
    case "sendICECandidate" => Some(Rule("receiveICECandidate", "to", CandidateOnly))
    case "endCall" => Some(Rule("callEnded", "to", NoPayload))
    case "startScreenShare" => Some(Rule("screenShareStarted", "to", FromOnly))
    case "stopScreenShare" => Some(Rule("screenShareStopped", "to", NoPayload))
    case "sendMessage" => Some(Rule("message", "to", WholeEnvelope))
    case "sendFile" => Some(Rule("message", "to", WholeEnvelope))
    case _ => None
  }

  /** The argument a handler passes to `emit`. */
  function Project(p: Projection, env: Fields): Payload {
    match p
    case WholeEnvelope => Obj(env)
    case FromAndSignal => Obj(Pick(env, {"from", "signal"}))
    case SignalOnly => Value(Get(env, "signal"))
    case CandidateOnly => Value(Get(env, "candidate"))
    case FromOnly => Obj(Pick(env, {"from"}))
    case NoPayload => NoArg
  }

  /**
   * The connection that `io.to(env[field])` reaches: the room of that id when
   * the field holds the id of a live connection, and nobody otherwise (a missing
   * field is the room `undefined`, which no socket is in).
   */
  function TargetOf(env: Fields, field: string, connected: set<Id>): (t: Option<Id>)
    ensures t.Some? <==> field in env && env[field].Text? && env[field].s in connected
    ensures t.Some? ==> env[field] == Text(t.value) && t.value in connected
  {
    if field in env && env[field].Text? && env[field].s in connected then Some(env[field].s) else None
  }

  /**
   * What the server sends when a connection emits `kind` with argument `env`:
   * at most one delivery, to the connection named by the rule's target field,
   * with the rule's outbound name and projection; nothing when the event has no
   * handler or the named connection is not live.
   */
  function Route(kind: string, env: Fields, connected: set<Id>): (r: Option<Delivery>)
    ensures r.Some? <==> Handler(kind).Some? && TargetOf(env, Handler(kind).value.targetField, connected).Some?
    ensures r.Some? ==> r.value.target in connected
    ensures r.Some? ==> env[Handler(kind).value.targetField] == Text(r.value.target)
    ensures r.Some? ==> r.value.event == Handler(kind).value.outEvent
    ensures r.Some? ==> r.value.payload == Project(Handler(kind).value.projection, env)
  {
    match Handler(kind)
    case None => None
    case Some(rule) =>
      match TargetOf(env, rule.targetField, connected)
      case None => None
      case Some(t) => Some(Delivery(t, rule.outEvent, Project(rule.projection, env)))
  }

  /**
   * The `connection` handler: the new socket joins the set of live connections
   * and is sent, on its own channel, one `yourID` event carrying its id.
   */
  function Connect(connected: set<Id>, id: Id): (r: (set<Id>, Delivery))
    ensures r.0 == connected + {id}
    ensures r.1.target == id && r.1.event == "yourID" && r.1.payload == Value(Some(Text(id)))
  {
    (connected + {id}, Delivery(id, "yourID", Value(Some(Text(id)))))
  }

  /** The `disconnect` handler only logs; socket.io removes the id from its room. */
  function Disconnect(connected: set<Id>, id: Id): (r: set<Id>)
    ensures id !in r
    ensures forall x :: x != id ==> (x in r <==> x in connected)
  {
    connected - {id}
  }

  /** One atomic step of the server: a connection opens, closes, or emits an event. */
  datatype ServerEvent =
    | Connected(id: Id)
    | Disconnected(id: Id)
    | Inbound(sender: Id, kind: string, env: Fields)

  /** A step: the new set of live connections and what is sent. Only a live socket's handlers run. */
  function Step(connected: set<Id>, ev: ServerEvent): (r: (set<Id>, Option<Delivery>))
    ensures ev.Connected? ==> r == (connected + {ev.id}, Some(Delivery(ev.id, "yourID", Value(Some(Text(ev.id))))))
    ensures ev.Disconnected? ==> r == (connected - {ev.id}, None)
    ensures ev.Inbound? ==> r.0 == connected
    ensures ev.Inbound? && ev.sender !in connected ==> r.1 == None
  {
    match ev
    case Connected(id) =>
      var (c, d) := Connect(connected, id);
      (c, Some(d))
    case Disconnected(id) => (Disconnect(connected, id), None)
    case Inbound(sender, kind, env) =>
      if sender in connected then (connected, Route(kind, env, connected)) else (connected, None)
  }

  /** The live connections after `evs` and everything the server sent, in order. */
  function Run(connected: set<Id>, evs: seq<ServerEvent>): (set<Id>, seq<Delivery>)
    decreases |evs|
  {
    if evs == [] then (connected, [])
    else
      var (c, d) := Step(connected, evs[0]);
      var (c', ds) := Run(c, evs[1..]);
      (c', (if d.Some? then [d.value] else []) + ds)
  }

  // ---- The relay table, entry by entry ----

  /** `callUser` reaches `data.userToCall` as `incomingCall` carrying exactly `from` and `signal`. */
  lemma CallUserRelay(env: Fields, connected: set<Id>, callee: Id)
    requires "userToCall" in env && env["userToCall"] == Text(callee) && callee in connected
    ensures Route("callUser", env, connected) == Some(Delivery(callee, "incomingCall", Obj(Pick(env, {"from", "signal"}))))
    ensures Get(Route("callUser", env, connected).value.payload.fields, "from") == Get(env, "from")
    ensures Get(Route("callUser", env, connected).value.payload.fields, "signal") == Get(env, "signal")
    ensures Route("callUser", env, connected).value.payload.fields.Keys <= {"from", "signal"}
  {
  }

  /** `answerCall` reaches `data.to` as `callAccepted` carrying `data.signal` alone. */
  lemma AnswerCallRelay(env: Fields, connected: set<Id>, caller: Id)
    requires "to" in env && env["to"] == Text(caller) && caller in connected
    ensures Route("answerCall", env, connected) == Some(Delivery(caller, "callAccepted", Value(Get(env, "signal"))))
  {
  }

  /** `sendICECandidate` reaches `data.to` as `receiveICECandidate` carrying `data.candidate` unchanged. */
  lemma IceCandidateRelay(env: Fields, connected: set<Id>, peer: Id)
    requires "to" in env && env["to"] == Text(peer) && peer in connected
    ensures Route("sendICECandidate", env, connected) == Some(Delivery(peer, "receiveICECandidate", Value(Get(env, "candidate"))))
  {
  }

  /**
   * `endCall` and `stopScreenShare` carry no argument; `startScreenShare` carries
   * only `from`.
   */
  lemma CallEndAndScreenShareRelay(env: Fields, connected: set<Id>, peer: Id)
    requires "to" in env && env["to"] == Text(peer) && peer in connected
    ensures Route("endCall", env, connected) == Some(Delivery(peer, "callEnded", NoArg))
    ensures Route("stopScreenShare", env, connected) == Some(Delivery(peer, "screenShareStopped", NoArg))
    ensures Route("startScreenShare", env, connected) == Some(Delivery(peer, "screenShareStarted", Obj(Pick(env, {"from"}))))
    ensures Route("startScreenShare", env, connected).value.payload.fields == if "from" in env then map["from" := env["from"]] else map[]
  {
  }

  /** Chat text and files are both forwarded as `message`, the envelope unmodified. */
  lemma ChatAndFileRelay(env: Fields, connected: set<Id>, peer: Id)
    requires "to" in env && env["to"] == Text(peer) && peer in connected
    ensures Route("sendMessage", env, connected) == Some(Delivery(peer, "message", Obj(env)))
    ensures Route("sendFile", env, connected) == Route("sendMessage", env, connected)
  {
  }

  /** An event with no handler, such as the client's `rejectCall`, is dropped. */
  lemma UnhandledEventDropped(kind: string, env: Fields, connected: set<Id>)
    requires kind !in {"callUser", "answerCall", "sendICECandidate", "endCall",
                       "startScreenShare", "stopScreenShare", "sendMessage", "sendFile"}
    ensures Route(kind, env, connected) == None
  {
  }

  /** Only the named target matters: the other live connections do not change a route. */
  lemma RouteDependsOnlyOnTarget(kind: string, env: Fields, c1: set<Id>, c2: set<Id>)
    requires forall x :: Text(x) in env.Values ==> (x in c1 <==> x in c2)
    ensures Route(kind, env, c1) == Route(kind, env, c2)
  {
  }

  /** After the connection `id` closes, no event addressed to it is delivered. */
  lemma DisconnectedIsUnreachable(connected: set<Id>, id: Id, kind: string, env: Fields)
    ensures forall d :: Route(kind, env, Disconnect(connected, id)) == Some(d) ==> d.target != id
  {
  }

  // ---- Whole runs ----

  /** Every step sends at most one event. */
  lemma {:induction false} AtMostOneDeliveryPerStep(connected: set<Id>, evs: seq<ServerEvent>)
    ensures |Run(connected, evs).1| <= |evs|
    decreases |evs|
  {
    if evs != [] {
      var (c, _) := Step(connected, evs[0]);
      AtMostOneDeliveryPerStep(c, evs[1..]);
    }
  }

  /** An id that was never live in a run receives nothing during it: there is no queue or retry. */
  lemma {:induction false} NeverConnectedReceivesNothing(connected: set<Id>, evs: seq<ServerEvent>, x: Id)
    requires x !in connected
    requires forall i :: 0 <= i < |evs| ==> evs[i] != Connected(x)
    ensures forall d :: d in Run(connected, evs).1 ==> d.target != x
    decreases |evs|
  {
    if evs != [] {
      var (c, _) := Step(connected, evs[0]);
      assert x !in c;
      assert forall i :: 0 <= i < |evs[1..]| ==> evs[1..][i] == evs[i + 1];
      NeverConnectedReceivesNothing(c, evs[1..], x);
    }
  }

  /** A step sends only to a connection that is live once the step is taken. */
  lemma StepDeliversToLiveId(connected: set<Id>, ev: ServerEvent)
    ensures Step(connected, ev).1.Some? ==> Step(connected, ev).1.value.target in Step(connected, ev).0
  {
  }

  /** Every delivery of a run went to a connection that was live at the start or connected during the run. */
  lemma {:induction false} DeliveriesGoToLiveIds(connected: set<Id>, evs: seq<ServerEvent>)
    ensures forall d :: d in Run(connected, evs).1 ==> d.target in connected || exists i :: 0 <= i < |evs| && evs[i] == Connected(d.target)
    decreases |evs|
  {
    if evs != [] {
      var (c, o) := Step(connected, evs[0]);
      DeliveriesGoToLiveIds(c, evs[1..]);
      forall d | d in Run(connected, evs).1
        ensures d.target in connected || exists i :: 0 <= i < |evs| && evs[i] == Connected(d.target)
      {
        if o.Some? && d == o.value {
          if evs[0].Connected? {
            assert evs[0] == Connected(d.target);
          }
        } else {
          assert d in Run(c, evs[1..]).1;
          if d.target !in c {
            var i :| 0 <= i < |evs[1..]| && evs[1..][i] == Connected(d.target);
            assert evs[i + 1] == Connected(d.target);
          } else if d.target !in connected {
            assert evs[0] == Connected(d.target);
          }
        }
      }
    }
  }

  /** Unfolds one step of a run. */
  lemma RunStep(connected: set<Id>, evs: seq<ServerEvent>)
    requires evs != []
    ensures Run(connected, evs).0 == Run(Step(connected, evs[0]).0, evs[1..]).0
    ensures Run(connected, evs).1 ==
      (if Step(connected, evs[0]).1.Some? then [Step(connected, evs[0]).1.value] else [])
      + Run(Step(connected, evs[0]).0, evs[1..]).1
  {
  }

  /** The call itself, once A and B are both live: call, answer, hang up. */
  lemma CallExchange(offer: Blob, answer: Blob)
    ensures Run({"A1", "B1"}, [
      Inbound("A1", "callUser", map["userToCall" := Text("B1"), "from" := Text("A1"), "signal" := Opaque(offer)]),
      Inbound("B1", "answerCall", map["to" := Text("A1"), "signal" := Opaque(answer)]),
      Inbound("A1", "endCall", map["to" := Text("B1")])
    ]) == ({"A1", "B1"}, [
      Delivery("B1", "incomingCall", Obj(map["from" := Text("A1"), "signal" := Opaque(offer)])),
      Delivery("A1", "callAccepted", Value(Some(Opaque(answer)))),
      Delivery("B1", "callEnded", NoArg)
    ])
  {
    var both: set<Id> := {"A1", "B1"};
    var call := map["userToCall" := Text("B1"), "from" := Text("A1"), "signal" := Opaque(offer)];
    var back := map["to" := Text("A1"), "signal" := Opaque(answer)];
    var hangUp := map["to" := Text("B1")];
    var e2, e3, e4 := Inbound("A1", "callUser", call), Inbound("B1", "answerCall", back), Inbound("A1", "endCall", hangUp);
    CallUserRelay(call, both, "B1");
    assert Pick(call, {"from", "signal"}) == map["from" := Text("A1"), "signal" := Opaque(offer)];
    AnswerCallRelay(back, both, "A1");
    CallEndAndScreenShareRelay(hangUp, both, "B1");
    RunStep(both, [e4]);
    RunStep(both, [e3, e4]);
    assert [e3, e4][1..] == [e4];
    RunStep(both, [e2, e3, e4]);
    assert [e2, e3, e4][1..] == [e3, e4];
    assert Run(both, [e2, e3, e4]).0 == both;
    assert Run(both, [e2, e3, e4]).1 == [
      Delivery("B1", "incomingCall", Obj(map["from" := Text("A1"), "signal" := Opaque(offer)])),
      Delivery("A1", "callAccepted", Value(Some(Opaque(answer)))),
      Delivery("B1", "callEnded", NoArg)
    ];
  }

  /** The scenario of a caller A and a callee B: connect both, call, answer, hang up. */
  lemma CallScenario(offer: Blob, answer: Blob)
    ensures Run({}, [
      Connected("A1"),
      Connected("B1"),
      Inbound("A1", "callUser", map["userToCall" := Text("B1"), "from" := Text("A1"), "signal" := Opaque(offer)]),
      Inbound("B1", "answerCall", map["to" := Text("A1"), "signal" := Opaque(answer)]),
      Inbound("A1", "endCall", map["to" := Text("B1")])
    ]).1 == [
      Delivery("A1", "yourID", Value(Some(Text("A1")))),
      Delivery("B1", "yourID", Value(Some(Text("B1")))),
      Delivery("B1", "incomingCall", Obj(map["from" := Text("A1"), "signal" := Opaque(offer)])),
      Delivery("A1", "callAccepted", Value(Some(Opaque(answer)))),
      Delivery("B1", "callEnded", NoArg)
    ]
  {
    var e0, e1 := Connected("A1"), Connected("B1");
    var e2 := Inbound("A1", "callUser", map["userToCall" := Text("B1"), "from" := Text("A1"), "signal" := Opaque(offer)]);
    var e3 := Inbound("B1", "answerCall", map["to" := Text("A1"), "signal" := Opaque(answer)]);
    var e4 := Inbound("A1", "endCall", map["to" := Text("B1")]);
    CallExchange(offer, answer);
    RunStep({"A1"}, [e1, e2, e3, e4]);
    assert [e1, e2, e3, e4][1..] == [e2, e3, e4];
    assert {"A1"} + {"B1"} == {"A1", "B1"};
    RunStep({}, [e0, e1, e2, e3, e4]);
    assert [e0, e1, e2, e3, e4][1..] == [e1, e2, e3, e4];
    assert {} + {"A1"} == {"A1"};
  }

  /** Calling an id that has no connection produces nothing at all. */
  lemma GhostCallScenario(offer: Blob)
    ensures Run({}, [
      Connected("A1"),
      Inbound("A1", "callUser", map["userToCall" := Text("ghost"), "from" := Text("A1"), "signal" := Opaque(offer)])
    ]).1 == [Delivery("A1", "yourID", Value(Some(Text("A1"))))]
  {
    var evs := [
      Connected("A1"),
      Inbound("A1", "callUser", map["userToCall" := Text("ghost"), "from" := Text("A1"), "signal" := Opaque(offer)])
    ];
    RunStep({"A1"}, evs[1..]);
    RunStep({}, evs);
  }
}
