/** The broker as a step system: clients connecting and stopping, packets arriving, deliveries whose
    walk, row reads and per-client work each run on their own, sends and acknowledgements, all freely
    interleaved. */
module Broker {
  import opened Levels
  import opened Qos
  import opened Messages
  import opened SubscriptionIndex
  import opened Persistence
  import opened Session
  import Bytes
  import Packets
  import Interleaved
  import Retained

  // How far the work for one recipient has come. Nothing protects its steps from each other: the
  // client is looked up, asked whether it is connected, given the message in its store, and sent it.
  datatype Phase =
    | Waiting
    | Missing // looked up, and not there
    | Found(handle: nat)
    | Tested(handle: nat, connected: bool)
    | Sending(handle: nat, m: Message)

  // The work for one recipient of one message. copy is the UUID of the copy handed over at QoS 0.
  datatype Task = Task(topic: string, payload: seq<QosByte>, qos: QosByte, copy: Uuid, phase: Phase)

  // A subscription whose retained messages are still to be found.
  datatype Finder = Finder(c: string, filter: string, qos: QosByte)

  // A generated client id on its way to its client's queue.
  datatype Greeting = Greeting(handle: nat, m: Message)

  // A delivery after its walk: the filters whose rows are still to be read, and the list so far.
  datatype Gather = Gather(topic: string, payload: seq<QosByte>, qos: QosByte, todo: seq<string>, list: Row)

  // What goroutines of their own still have to do.
  datatype Work = Work(
    gathering: map<nat, Gather>,
    pending: map<(nat, string), Task>, // by delivery number and client
    greetings: map<string, Greeting>,
    nextGather: nat,
    nextDelivery: nat)

  // What packets received have left for later: retained messages, searches for them, and for each client
  // the reply its Receive is blocked on.
  datatype Intake = Intake(
    retained: map<string, Message>, finders: multiset<Finder>, replying: map<string, Control>)

  datatype State = State(
    depth: nat,
    history: seq<SubOp>,
    clients: map<string, ClientState>,
    inbound: map<string, Store>,
    outbound: map<string, Store>,
    intake: Intake,
    work: Work,
    loose: set<Uuid>, // messages that may be queued without being stored
    nextUuid: Uuid,
    nextHandle: nat)

  datatype Event =
    | Connect(c: string, clean: bool, generated: bool, publishes: seq<Uuid>, pubrels: seq<Uuid>)
    | FirstFrame(bytes: seq<Bytes.Byte>)
    | Frame(c: string, bytes: seq<Bytes.Byte>)
    | SubscribeTo(c: string, filters: seq<string>, qoss: seq<QosByte>, messageId: nat)
    | UnsubscribeFrom(c: string, filters: seq<string>, messageId: nat)
    | ReceivePublish(c: string, topic: string, payload: seq<QosByte>, qos: QosByte, messageId: nat, dup: bool,
                     retain: bool)
    | ReceivePuback(c: string, id: nat)
    | ReceivePubrec(c: string, id: nat)
    | ReceivePubcomp(c: string, id: nat)
    | ReceivePubrel(c: string, id: nat)
    | Ping(c: string)
    | Walk(topic: string, payload: seq<QosByte>, qos: QosByte, order: seq<string>)
    | ReadRow(g: nat)
    | Dispatch(g: nat)
    | FindRetained(c: string, filter: string, qos: QosByte, topics: seq<string>)
    | LookUp(d: nat, c: string)
    | CheckConnected(d: nat, c: string)
    | PersistFor(d: nat, c: string)
    | EnqueueFor(d: nat, c: string)
    | Greet(c: string)
    | Reply(c: string)
    | Send(c: string)
    | SendControl(c: string)
    | Stop(c: string)

  // A step either leaves a state or ends the process.
  datatype Outcome = Running(s: State) | Crashed

  function Start(depth: nat): State
  {
    State(depth, [], map[], map[], map[], Intake(map[], multiset{}, map[]), Work(map[], map[], map[], 0, 1), {}, 0, 0)
  }

  // ---------------------------------------------------------------------------
  // Packets from the wire.

  /** A Go string is its bytes. */
  function Text(bytes: seq<Bytes.Byte>): string
  {
    seq(|bytes|, i requires 0 <= i < |bytes| => bytes[i] as char)
  }

  function Texts(fields: seq<seq<Bytes.Byte>>): (texts: seq<string>)
    ensures |texts| == |fields|
  {
    seq(|fields|, i requires 0 <= i < |fields| => Text(fields[i]))
  }

  function TextBytes(text: string): seq<QosByte>
  {
    seq(|text|, i requires 0 <= i < |text| => text[i] as int % 256)
  }

  // What Receive makes of a frame.
  datatype Reaction = Handles(e: Event) | Ignores | Panics

  /** The packets Receive acts on by changing the broker's state. */
  predicate IsPacket(e: Event)
  {
    e.SubscribeTo? || e.UnsubscribeFrom? || e.ReceivePublish? || e.ReceivePuback? || e.ReceivePubrec?
    || e.ReceivePubcomp? || e.ReceivePubrel? || e.Ping?
  }

  /** A second CONNECT and DISCONNECT only start a Stop; the packets a broker sends are passed over. */
  function Handling(c: string, p: Packets.Packet): (r: Reaction)
    ensures r.Handles? ==> IsPacket(r.e) && r.e.c == c
  {
    match p
    case Publish(h, topic, messageId, payload) =>
      Handles(ReceivePublish(c, Text(topic), payload, h.qos, messageId, h.dup, h.retain))
    case IdOnly(h, messageId) =>
      if h.messageType == Packets.PUBACK then Handles(ReceivePuback(c, messageId))
      else if h.messageType == Packets.PUBREC then Handles(ReceivePubrec(c, messageId))
      else if h.messageType == Packets.PUBREL then Handles(ReceivePubrel(c, messageId))
      else if h.messageType == Packets.PUBCOMP then Handles(ReceivePubcomp(c, messageId))
      else Ignores
    case Subscribe(_, messageId, topics, qoss) => Handles(SubscribeTo(c, Texts(topics), qoss, messageId))
    case Unsubscribe(_, messageId, topics) => Handles(UnsubscribeFrom(c, Texts(topics), messageId))
    case Empty(h) => if h.messageType == Packets.PINGREQ then Handles(Ping(c)) else Ignores
    case _ => Ignores
  }

  /** A read that fails only starts a Stop, and one that hangs does nothing more. */
  function Read(c: string, bytes: seq<Bytes.Byte>): (r: Reaction)
    ensures r.Handles? ==> IsPacket(r.e) && r.e.c == c
  {
    match Packets.ReadPacket(bytes)
    case Got(p, _) => Handling(c, p)
    case Panics => Panics
    case _ => Ignores
  }

  /** InitClient asserts that the first packet is a CONNECT, without looking at ReadPacket's error. A
      CONNECT it accepts is the event Connect. */
  predicate IsFirstFrame(bytes: seq<Bytes.Byte>)
  {
    match Packets.ReadPacket(bytes)
    case Got(p, _) => p.Connect?
    case Hangs => true
    case _ => false
  }

  /** The packet in a frame, if Receive acts on it. */
  function Content(e: Event): Event
  {
    if e.Frame? && Read(e.c, e.bytes).Handles? then Read(e.c, e.bytes).e else e
  }

  // ---------------------------------------------------------------------------
  // When a step can happen.

  predicate Connected(s: State, c: string)
  {
    c in s.clients && s.clients[c].connected
  }

  /** The Client object is the one in the client list, and connected: its channels are open. */
  predicate Live(s: State, c: string, handle: nat)
  {
    Connected(s, c) && s.clients[c].handle == handle
  }

  predicate HasStores(s: State, c: string)
  {
    c in s.inbound && c in s.outbound
  }

  /** Connecting finds a session to resume: the client is durable and its stores exist. */
  predicate Resumes(s: State, c: string, clean: bool)
  {
    !clean && HasStores(s, c)
  }

  predicate HasTask(s: State, d: nat, c: string)
  {
    (d, c) in s.work.pending
  }

  function PhaseOf(s: State, d: nat, c: string): Phase
  {
    if (d, c) in s.work.pending then s.work.pending[(d, c)].phase else Waiting
  }

  function GatherView(s: State, g: nat): Interleaved.State
    requires g in s.work.gathering
  {
    Interleaved.State(s.history, s.work.gathering[g].todo, s.work.gathering[g].list)
  }

  /** The client's Receive is free to read: it has got rid of its last reply. */
  predicate Reading(s: State, c: string)
  {
    Connected(s, c) && c !in s.intake.replying
  }

  /** One client id has one connection at a time, a generated id is new, and a client stops only when its
      Receive has. A reply to SUBSCRIBE, UNSUBSCRIBE or PINGREQ waits for room, and so does a greeting. */
  ghost predicate Enabled(s: State, e: Event)
    decreases if e.Frame? then 1 else 0
  {
    match e
    case Connect(c, clean, generated, publishes, pubrels) =>
      !Connected(s, c) && (generated ==> c !in s.clients && c !in s.work.greetings)
      && (Resumes(s, c, clean) ==> CanReplay(s.outbound[c], publishes, pubrels, s.depth))
    case FirstFrame(_) => true
    case Frame(c, bytes) => Reading(s, c) && (Read(c, bytes).Handles? ==> Enabled(s, Read(c, bytes).e))
    case SubscribeTo(c, filters, qoss, _) => Reading(s, c) && |filters| == |qoss|
    case Walk(topic, _, _, order) =>
      LeavesTable(Added(s.history), topic)
      || Interleaved.WalkDone(Interleaved.State(s.history, order, map[]), topic)
    case ReadRow(g) => g in s.work.gathering && s.work.gathering[g].todo != []
    case Dispatch(g) => g in s.work.gathering && s.work.gathering[g].todo == []
    case FindRetained(c, filter, qos, topics) =>
      Finder(c, filter, qos) in s.intake.finders
      && NoDup(topics) && forall t :: t in topics <==> t in Retained.MatchingTopics(s.intake.retained, filter)
    case LookUp(d, c) => HasTask(s, d, c) && PhaseOf(s, d, c).Waiting?
    case CheckConnected(d, c) => PhaseOf(s, d, c).Missing? || PhaseOf(s, d, c).Found?
    case PersistFor(d, c) => PhaseOf(s, d, c).Tested?
    case EnqueueFor(d, c) => PhaseOf(s, d, c).Sending?
    case Greet(c) =>
      c in s.work.greetings && (Live(s, c, s.work.greetings[c].handle) ==> |s.clients[c].queue| < s.depth)
    case Reply(c) => Connected(s, c) && c in s.intake.replying && |s.clients[c].priority| < s.depth
    case Send(c) => Connected(s, c) && s.clients[c].queue != []
    case SendControl(c) => Connected(s, c) && s.clients[c].priority != []
    case _ => Reading(s, e.c)
  }

  /** The input no state survives: SUBSCRIBE with a filter deeper than the table, UNSUBSCRIBE without
      topics, whose first one is indexed all the same, a PUBLISH whose payload length comes out
      negative, and a connection that does not start with a CONNECT. */
  predicate Fatal(e: Event)
    decreases if e.Frame? then 1 else 0
  {
    match e
    case SubscribeTo(_, filters, _, _) => exists f :: f in filters && |Split(f)| >= LEVELS
    case UnsubscribeFrom(_, filters, _) => filters == []
    case FirstFrame(bytes) => !IsFirstFrame(bytes)
    case Frame(c, bytes) => Read(c, bytes).Panics? || (Read(c, bytes).Handles? && Fatal(Read(c, bytes).e))
    case _ => false
  }

  /** A topic whose walk indexes past the table. */
  ghost predicate Overruns(s: State, e: Event)
  {
    e.Walk? && LeavesTable(Added(s.history), e.topic)
  }

  /** Work for a recipient that meets no client, no store, or a closed channel. */
  predicate MeetsNothing(s: State, e: Event)
  {
    match e
    case CheckConnected(d, c) => PhaseOf(s, d, c).Missing?
    case PersistFor(_, c) => c !in s.outbound
    case EnqueueFor(d, c) => PhaseOf(s, d, c).Sending? && !Live(s, c, PhaseOf(s, d, c).handle)
    case Greet(c) => c in s.work.greetings && !Live(s, c, s.work.greetings[c].handle)
    case _ => false
  }

  ghost predicate Ends(s: State, e: Event)
  {
    Fatal(e) || Overruns(s, e) || MeetsNothing(s, e)
  }

  // ---------------------------------------------------------------------------
  // The steps.

  function ConnOf(s: State, c: string): Conn
    requires c in s.clients && c in s.outbound
  {
    Conn(s.clients[c], s.outbound[c])
  }

  function WithConn(s: State, c: string, k: Conn): State
  {
    s.(clients := s.clients[c := k.client], outbound := s.outbound[c := k.outbound])
  }

  function WithPriority(s: State, c: string, control: Control): State
    requires c in s.clients
  {
    s.(clients := s.clients[c := s.clients[c].(priority := Offer(s.clients[c].priority, control, s.depth))])
  }

  /** A reply that waits for room. */
  function WithReply(s: State, c: string, control: Control): State
  {
    s.(intake := s.intake.(replying := s.intake.replying[c := control]))
  }

  function Opened(s: State, c: string): State
  {
    s.(inbound := s.inbound[c := map[]], outbound := s.outbound[c := map[]])
  }

  /** The message is stored for c and on its way to c's queue. */
  predicate IsUnsent(s: State, d: nat, c: string)
  {
    PhaseOf(s, d, c).Sending? && PhaseOf(s, d, c).m.qos > 0
  }

  function Unsent(s: State, c: string): set<Uuid>
  {
    set k | k in s.work.pending && k.1 == c && IsUnsent(s, k.0, c) :: s.work.pending[k].phase.m.uuid
  }

  /** A generated client id is told to its client in a message that goes into no store. */
  function GreetingStep(s: State, c: string): State
    requires c in s.clients
  {
    var m := Message(s.nextUuid, "$SYS/session_identifier", TextBytes(c), 1, false, false, 0);
    s.(work := s.work.(greetings := s.work.greetings[c := Greeting(s.clients[c].handle, m)]),
       loose := s.loose + {s.nextUuid}, nextUuid := s.nextUuid + 1)
  }

  /** A known client that asks for a clean session keeps its Client object, id table included, and gets
      empty stores. */
  function TakeOver(s: State, c: string): State
    requires c in s.clients
  {
    var client := s.clients[c].(connected := true, cleanSession := true, queue := [], priority := []);
    Opened(s.(clients := s.clients[c := client], loose := s.loose + Unsent(s, c), nextHandle := s.nextHandle + 1), c)
  }

  function Resume(s: State, c: string, publishes: seq<Uuid>, pubrels: seq<Uuid>): State
    requires c in s.outbound
    requires forall u :: u in publishes ==> u in IsPublish(s.outbound[c])
    requires forall u :: u in pubrels ==> u in IsPubrel(s.outbound[c])
  {
    WithConn(s, c, Replay(s.nextHandle, s.outbound[c], publishes, pubrels)).(nextHandle := s.nextHandle + 1)
  }

  function Admit(s: State, c: string, clean: bool): State
  {
    Opened(s.(clients := s.clients[c := ClientState(s.nextHandle, true, clean, map[], [], [])],
              nextHandle := s.nextHandle + 1), c)
  }

  function ConnectStep(s: State, e: Event): State
    requires e.Connect? && Enabled(s, e)
  {
    if e.c in s.clients && e.clean then TakeOver(s, e.c)
    else if Resumes(s, e.c, e.clean) then Resume(s, e.c, e.publishes, e.pubrels)
    else if e.generated then GreetingStep(Admit(s, e.c, e.clean), e.c)
    else Admit(s, e.c, e.clean)
  }

  /** The session's end: a clean session leaves nothing behind. */
  function StopStep(s: State, c: string): State
    requires c in s.clients
  {
    if s.clients[c].cleanSession then
      s.(clients := s.clients - {c}, history := s.history + [DeleteAllOp(c)],
         inbound := s.inbound - {c}, outbound := s.outbound - {c})
    else
      s.(clients := s.clients[c := s.clients[c].(connected := false, queue := [], priority := [])])
  }

  function WalkStep(s: State, e: Event): State
    requires e.Walk?
  {
    var g := s.work.nextGather;
    s.(work := s.work.(gathering := s.work.gathering[g := Gather(e.topic, e.payload, e.qos, e.order, map[])],
                       nextGather := g + 1))
  }

  function ReadRowStep(s: State, g: nat): State
    requires g in s.work.gathering
  {
    var next := Interleaved.Step(GatherView(s, g), Interleaved.ReadRow, s.work.gathering[g].qos);
    var gather := s.work.gathering[g].(todo := next.todo, list := next.list);
    s.(work := s.work.(gathering := s.work.gathering[g := gather]))
  }

  /** What the delivery owes a client of its list. */
  function TaskFor(s: State, gather: Gather, c: string): Task
    requires c in gather.list
  {
    Task(gather.topic, gather.payload, gather.list[c], s.nextUuid, Waiting)
  }

  function DispatchStep(s: State, g: nat): State
    requires g in s.work.gathering
  {
    var gather, d := s.work.gathering[g], s.work.nextDelivery;
    var tasks := map c | c in gather.list :: (d, c) := TaskFor(s, gather, c);
    s.(work := s.work.(pending := s.work.pending + tasks, gathering := s.work.gathering - {g}, nextDelivery := d + 1),
       nextUuid := s.nextUuid + 1)
  }

  /** What a retained message owes a subscription at QoS qos. */
  function RetainedTask(m: Message, qos: QosByte, copy: Uuid): Task
  {
    Task(m.topic, m.payload, Min(m.qos, qos), copy, Waiting)
  }

  /** The topics found are retained. */
  predicate AllRetained(s: State, topics: seq<string>)
  {
    forall t :: t in topics ==> t in s.intake.retained
  }

  /** The task for the k-th topic found. */
  function FoundTask(s: State, topics: seq<string>, qos: QosByte, k: nat): Task
    requires k < |topics| && AllRetained(s, topics)
  {
    RetainedTask(s.intake.retained[topics[k]], qos, s.nextUuid + k)
  }

  /** One task for each retained topic found, numbered from the next delivery on. */
  function RetainedTasks(s: State, e: Event): map<(nat, string), Task>
    requires e.FindRetained? && AllRetained(s, e.topics)
  {
    var d := s.work.nextDelivery;
    map i: nat | d <= i < d + |e.topics| :: (i, e.c) := FoundTask(s, e.topics, e.qos, i - d)
  }

  function FindRetainedStep(s: State, e: Event): State
    requires e.FindRetained? && AllRetained(s, e.topics)
  {
    var n := |e.topics|;
    s.(work := s.work.(pending := s.work.pending + RetainedTasks(s, e), nextDelivery := s.work.nextDelivery + n),
       intake := s.intake.(finders := s.intake.finders - multiset{Finder(e.c, e.filter, e.qos)}),
       nextUuid := s.nextUuid + n)
  }

  /** The message a task hands over: a copy of its own above QoS 0, the prepared copy at QoS 0. */
  function TaskMessage(t: Task, own: Uuid): Message
  {
    Message(if t.qos > 0 then own else t.copy, t.topic, t.payload, t.qos, false, false, 0)
  }

  function WithPhase(s: State, d: nat, c: string, phase: Phase): State
    requires (d, c) in s.work.pending
  {
    var t := s.work.pending[(d, c)].(phase := phase);
    s.(work := s.work.(pending := s.work.pending[(d, c) := t]))
  }

  function WithoutTask(s: State, d: nat, c: string): State
  {
    s.(work := s.work.(pending := s.work.pending - {(d, c)}))
  }

  function LookUpStep(s: State, d: nat, c: string): State
    requires (d, c) in s.work.pending
  {
    WithPhase(s, d, c, if c in s.clients then Found(s.clients[c].handle) else Missing)
  }

  function CheckConnectedStep(s: State, d: nat, c: string): State
    requires PhaseOf(s, d, c).Found?
  {
    var t, handle := s.work.pending[(d, c)], PhaseOf(s, d, c).handle;
    if t.qos > 0 then WithPhase(s, d, c, Tested(handle, Live(s, c, handle)))
    else if Live(s, c, handle) then WithPhase(s, d, c, Sending(handle, TaskMessage(t, t.copy)))
    else WithoutTask(s, d, c)
  }

  function PersistStep(s: State, d: nat, c: string): State
    requires PhaseOf(s, d, c).Tested? && c in s.outbound
  {
    var t, phase := s.work.pending[(d, c)], PhaseOf(s, d, c);
    var m := TaskMessage(t, s.nextUuid);
    var s' := s.(outbound := s.outbound[c := AddTo(s.outbound[c], m.uuid, PublishEntry(m, d))],
                 nextUuid := s.nextUuid + 1);
    if phase.connected then WithPhase(s', d, c, Sending(phase.handle, m)) else WithoutTask(s', d, c)
  }

  function WithQueued(s: State, c: string, m: Message): State
    requires c in s.clients
  {
    s.(clients := s.clients[c := s.clients[c].(queue := Offer(s.clients[c].queue, m, s.depth))])
  }

  function EnqueueStep(s: State, d: nat, c: string): State
    requires PhaseOf(s, d, c).Sending? && c in s.clients
  {
    WithoutTask(WithQueued(s, c, PhaseOf(s, d, c).m), d, c)
  }

  function GreetStep(s: State, c: string): State
    requires c in s.work.greetings && c in s.clients
  {
    WithQueued(s, c, s.work.greetings[c].m).(work := s.work.(greetings := s.work.greetings - {c}))
  }

  /** PUBLISH from a client: stored inbound above QoS 0, and retained if it says so. The PUBACK of QoS 1 then
      deletes under its own UUID. */
  function ReceivePublishStep(s: State, c: string, m: Message): State
    requires c in s.clients && c in s.inbound
  {
    var stored := if m.qos > 0 then AddTo(s.inbound[c], m.uuid, PublishEntry(m, 0)) else s.inbound[c];
    var kept := if m.qos == 1 then DeleteFrom(stored, s.nextUuid + 1) else stored;
    var retained := if m.retain then Retained.Set(s.intake.retained, m.topic, m) else s.intake.retained;
    var s' := s.(inbound := s.inbound[c := kept], intake := s.intake.(retained := retained),
                 nextUuid := s.nextUuid + 2);
    if m.qos == 1 then WithPriority(s', c, Control(Puback, m.messageId))
    else if m.qos == 2 then WithPriority(s', c, Control(Pubrec, m.messageId))
    else s'
  }

  /** The steps of one connected client's own goroutines. */
  predicate AtClient(e: Event)
  {
    IsPacket(e) || e.Reply? || e.Send? || e.SendControl?
  }

  /** The reply has got through. */
  function ReplyStep(s: State, c: string): State
    requires c in s.clients && c in s.intake.replying
  {
    WithPriority(s, c, s.intake.replying[c]).(intake := s.intake.(replying := s.intake.replying - {c}))
  }

  /** Each AddSub starts a search of its own. */
  function Finders(c: string, filters: seq<string>, qoss: seq<QosByte>): multiset<Finder>
    requires |filters| == |qoss|
  {
    multiset(seq(|filters|, i requires 0 <= i < |filters| => Finder(c, filters[i], qoss[i])))
  }

  /** What a step takes from its client. */
  predicate Ready(s: State, e: Event)
    requires AtClient(e)
  {
    e.c in s.clients && HasStores(s, e.c)
    && (e.SubscribeTo? ==> |e.filters| == |e.qoss|) && (e.UnsubscribeFrom? ==> e.filters != [])
    && (e.Reply? ==> e.c in s.intake.replying)
    && (e.Send? ==> s.clients[e.c].queue != []) && (e.SendControl? ==> s.clients[e.c].priority != [])
  }

  function ClientStep(s: State, e: Event): State
    requires AtClient(e) && Ready(s, e)
  {
    var c := e.c;
    var k, u := ConnOf(s, c), s.nextUuid;
    match e
    case SubscribeTo(_, filters, qoss, id) =>
      var intake := s.intake.(finders := s.intake.finders + Finders(c, filters, qoss));
      WithReply(s.(history := s.history + AddOps(c, filters, qoss), intake := intake), c,
                Control(Suback(qoss), id))
    case UnsubscribeFrom(_, filters, id) =>
      WithReply(s.(history := s.history + [DeleteOp(c, filters[0])]), c, Control(Unsuback, id))
    case ReceivePublish(_, topic, payload, qos, messageId, dup, retain) =>
      ReceivePublishStep(s, c, Message(u, topic, payload, qos, dup, retain, messageId))
    case ReceivePuback(_, id) => WithConn(s, c, OnPuback(k, id, u)).(nextUuid := u + 1)
    case ReceivePubrec(_, id) => WithConn(s, c, OnPubrec(k, id, u, s.depth)).(nextUuid := u + 1)
    case ReceivePubcomp(_, id) => WithConn(s, c, OnPubcomp(k, id))
    case ReceivePubrel(_, id) =>
      WithPriority(s.(inbound := s.inbound[c := DeleteFrom(s.inbound[c], u)], nextUuid := u + 1), c,
                   Control(Pubcomp, id))
    case Ping(_) => WithReply(s, c, Control(Pingresp, 0))
    case Reply(_) => ReplyStep(s, c)
    case Send(_) => WithConn(s, c, SendOne(k))
    case SendControl(_) => WithConn(s, c, k.(client := k.client.(priority := k.client.priority[1..])))
  }

  /** The steps of the work for one recipient. A client that is not there has neither connection nor
      store, and a Client object that is not live has closed channels. */
  predicate AtTask(e: Event)
  {
    e.LookUp? || e.CheckConnected? || e.PersistFor? || e.EnqueueFor?
  }

  ghost function TaskStep(s: State, e: Event): Outcome
    requires AtTask(e) && Enabled(s, e)
  {
    match e
    case LookUp(d, c) => Running(LookUpStep(s, d, c))
    case CheckConnected(d, c) =>
      if PhaseOf(s, d, c).Missing? then Crashed else Running(CheckConnectedStep(s, d, c))
    case PersistFor(d, c) =>
      if c !in s.outbound then Crashed else Running(PersistStep(s, d, c))
    case EnqueueFor(d, c) =>
      if !Live(s, c, PhaseOf(s, d, c).handle) then Crashed else Running(EnqueueStep(s, d, c))
  }

  ghost function PacketStep(s: State, e: Event): Outcome
    requires AtClient(e) && Enabled(s, e)
  {
    if Fatal(e) || !HasStores(s, e.c) then Crashed else Running(ClientStep(s, e))
  }

  ghost function FrameStep(s: State, c: string, bytes: seq<Bytes.Byte>): Outcome
    requires Read(c, bytes).Handles? ==> Enabled(s, Read(c, bytes).e)
  {
    match Read(c, bytes)
    case Handles(packet) => PacketStep(s, packet)
    case Ignores => Running(s)
    case Panics => Crashed
  }

  /** The steps of a delivery before its work is handed out, and the search for retained messages. */
  predicate AtDelivery(e: Event)
  {
    e.Walk? || e.ReadRow? || e.Dispatch? || e.FindRetained?
  }

  ghost function DeliveryStep(s: State, e: Event): Outcome
    requires AtDelivery(e) && Enabled(s, e)
  {
    match e
    case Walk(_, _, _, _) => if Overruns(s, e) then Crashed else Running(WalkStep(s, e))
    case ReadRow(g) => Running(ReadRowStep(s, g))
    case Dispatch(g) => Running(DispatchStep(s, g))
    case FindRetained(_, _, _, _) => Running(FindRetainedStep(s, e))
  }

  ghost function OwnStep(s: State, e: Event): Outcome
    requires Enabled(s, e) && !AtTask(e) && !AtClient(e) && !AtDelivery(e)
  {
    match e
    case Connect(_, _, _, _, _) => Running(ConnectStep(s, e))
    case FirstFrame(_) => if Fatal(e) then Crashed else Running(s)
    case Frame(c, bytes) => FrameStep(s, c, bytes)
    case Greet(c) => if !Live(s, c, s.work.greetings[c].handle) then Crashed else Running(GreetStep(s, c))
    case Stop(c) => Running(StopStep(s, c))
  }

  ghost function Step(s: State, e: Event): Outcome
    requires Enabled(s, e)
  {
    if AtTask(e) then TaskStep(s, e)
    else if AtClient(e) then PacketStep(s, e)
    else if AtDelivery(e) then DeliveryStep(s, e)
    else OwnStep(s, e)
  }

  // ---------------------------------------------------------------------------
  // The invariant.

  ghost predicate EntryOk(store: Store, u: Uuid, nextDelivery: nat)
  {
    u in store && store[u].PublishEntry? ==>
      store[u].m.uuid == u && store[u].m.qos > 0 && store[u].origin < nextDelivery
  }

  ghost predicate StoreOk(store: Store, nextDelivery: nat)
  {
    forall u {:trigger EntryOk(store, u, nextDelivery)} :: EntryOk(store, u, nextDelivery)
  }

  /** Every UUID in the store was issued already. */
  ghost predicate StoredBefore(store: Store, next: Uuid)
  {
    forall u :: u in store ==> u < next
  }

  ghost predicate ClientOk(s: State, c: string)
  {
    if c in s.clients then
      HasStores(s, c) && ConnOk(ConnOf(s, c), s.depth, s.nextUuid, s.loose)
        && StoreOk(s.outbound[c], s.work.nextDelivery)
      && StoredBefore(s.inbound[c], s.nextUuid) && s.clients[c].handle < s.nextHandle
    else c !in s.inbound && c !in s.outbound
  }

  /** A message on its way to c's queue is in c's store, as long as its Client object is c's. */
  ghost predicate SendingOk(s: State, c: string, handle: nat, m: Message)
  {
    handle < s.nextHandle && m.uuid < s.nextUuid
    && (c in s.clients && c in s.outbound && s.clients[c].handle == handle ==>
          QueuedOk(ConnOf(s, c), m, s.nextUuid, s.loose))
  }

  ghost predicate PhaseOk(s: State, c: string, t: Task)
  {
    match t.phase
    case Waiting => true
    case Missing => true
    case Found(handle) => handle < s.nextHandle
    case Tested(handle, _) => handle < s.nextHandle && t.qos > 0
    case Sending(handle, m) => SendingOk(s, c, handle, m)
  }

  ghost predicate PendingOk(s: State, d: nat, c: string)
  {
    (d, c) in s.work.pending ==>
      var t := s.work.pending[(d, c)];
      0 < d < s.work.nextDelivery && t.copy < s.nextUuid && PhaseOk(s, c, t)
  }

  ghost predicate GreetingOk(s: State, c: string)
  {
    c in s.work.greetings ==>
      s.work.greetings[c].handle < s.nextHandle && s.work.greetings[c].m.uuid in s.loose
  }

  ghost predicate SubscriberOk(s: State, c: string, f: string)
  {
    (c, f) in Subs(s.history) ==> c in s.clients
  }

  ghost predicate Inv(s: State)
  {
    s.work.nextDelivery > 0 && (forall u :: u in s.loose ==> u < s.nextUuid)
    && (forall g :: g in s.work.gathering ==> g < s.work.nextGather)
    && (forall c {:trigger ClientOk(s, c)} :: ClientOk(s, c))
    && (forall d, c {:trigger PendingOk(s, d, c)} :: PendingOk(s, d, c))
    && (forall c {:trigger GreetingOk(s, c)} :: GreetingOk(s, c))
    && (forall c, f {:trigger SubscriberOk(s, c, f)} :: SubscriberOk(s, c, f))
  }
}
