/** What each step of the broker does, in plain terms: what a packet is answered with and leaves behind, what a
    connection starts with and a stop leaves, and what the work for a recipient hands over. */
module BrokerAnswers {
  import opened Levels
  import opened Messages
  import opened SubscriptionIndex
  import opened Persistence
  import opened Session
  import opened Broker
  import Bytes
  import Packets
  import Wire

  // ---------------------------------------------------------------------------
  // Packets.

  /** The priority queue with one more control packet at its end, or as it was if it is full. */
  function Answered(s: State, c: string, kind: Kind, id: nat): seq<Control>
    requires c in s.clients
  {
    var queue := s.clients[c].priority;
    if |queue| < s.depth then queue + [Control(kind, id)] else queue
  }

  /** The store with one more entry. */
  function With(store: Store, u: Uuid, entry: Entry): Store { store[u := entry] }

  function WithAnswers(s: State, c: string, answers: seq<Control>): map<string, ClientState>
    requires c in s.clients
  {
    s.clients[c := s.clients[c].(priority := answers)]
  }

  lemma ReceivedPublish(s: State, c: string, m: Message)
    requires c in s.clients && c in s.inbound && m.uuid !in s.inbound[c] && s.nextUuid + 1 !in s.inbound[c]
    requires m.uuid == s.nextUuid
    ensures ReceivePublishStep(s, c, m)
         == s.(clients := WithAnswers(s, c, if m.qos == 1 then Answered(s, c, Puback, m.messageId)
                                            else if m.qos == 2 then Answered(s, c, Pubrec, m.messageId)
                                            else s.clients[c].priority),
               inbound := s.inbound[c := if m.qos == 0 then s.inbound[c]
                                         else With(s.inbound[c], m.uuid, PublishEntry(m, 0))],
               intake := s.intake.(retained := if !m.retain then s.intake.retained
                                               else if m.payload == [] then s.intake.retained - {m.topic}
                                               else s.intake.retained[m.topic := m]),
               nextUuid := s.nextUuid + 2)
  {
    assert s.clients[c := s.clients[c]] == s.clients;
    if m.qos == 1 {
      var stored := With(s.inbound[c], m.uuid, PublishEntry(m, 0));
      assert DeleteFrom(stored, s.nextUuid + 1) == stored;
    }
  }

  /** PUBLISH: QoS 1 is answered with PUBACK and QoS 2 with PUBREC, under the packet's own id, at the end of the
      priority queue if it has room; QoS 0 and 3 are not answered. Above QoS 0 the message joins the inbound store,
      alone, under a new UUID. If the packet says so it is retained, an empty payload clearing its topic. Nothing
      else changes. */
  lemma PublishAnswered(s: State, e: Event)
    requires e.ReceivePublish? && Enabled(s, e) && Inv(s)
    ensures e.c in s.inbound && s.nextUuid !in s.inbound[e.c] && Step(s, e).Running?
    ensures var c, m := e.c, Message(s.nextUuid, e.topic, e.payload, e.qos, e.dup, e.retain, e.messageId);
      Step(s, e).s
      == s.(clients := WithAnswers(s, c, if e.qos == 1 then Answered(s, c, Puback, e.messageId)
                                         else if e.qos == 2 then Answered(s, c, Pubrec, e.messageId)
                                         else s.clients[c].priority),
            inbound := s.inbound[c := if e.qos == 0 then s.inbound[c]
                                      else With(s.inbound[c], m.uuid, PublishEntry(m, 0))],
            intake := s.intake.(retained := if !e.retain then s.intake.retained
                                            else if e.payload == [] then s.intake.retained - {e.topic}
                                            else s.intake.retained[e.topic := m]),
            nextUuid := s.nextUuid + 2)
  {
    assert ClientOk(s, e.c);
    ReceivedPublish(s, e.c, Message(s.nextUuid, e.topic, e.payload, e.qos, e.dup, e.retain, e.messageId));
  }

  /** PUBREC for an id in use: answered with PUBREL under that id, which also joins the outbound store under a new
      UUID. For any other id it does nothing. */
  lemma PubrecAnswered(s: State, e: Event)
    requires e.ReceivePubrec? && Enabled(s, e) && Inv(s)
    ensures e.c in s.outbound && s.nextUuid !in s.outbound[e.c] && Step(s, e).Running?
    ensures var c := e.c;
      Step(s, e).s
      == if e.id in s.clients[c].ids then
           s.(clients := WithAnswers(s, c, Answered(s, c, Pubrel, e.id)),
              outbound := s.outbound[c := With(s.outbound[c], s.nextUuid, PubrelEntry(e.id))],
               nextUuid := s.nextUuid + 1)
         else s.(nextUuid := s.nextUuid + 1)
  {
    var c := e.c;
    assert ClientOk(s, c);
    PubrecMeaning(ConnOf(s, c), e.id, s.nextUuid, s.depth);
    assert s.clients[c := s.clients[c]] == s.clients && s.outbound[c := s.outbound[c]] == s.outbound;
  }

  /** PUBREL is answered with PUBCOMP under its id, whatever is stored, and nothing else changes. */
  lemma PubrelAnswered(s: State, e: Event)
    requires e.ReceivePubrel? && Enabled(s, e) && Inv(s)
    ensures Step(s, e).Running?
    ensures Step(s, e).s
         == s.(clients := WithAnswers(s, e.c, Answered(s, e.c, Pubcomp, e.id)), nextUuid := s.nextUuid + 1)
  {
    assert ClientOk(s, e.c);
    assert DeleteFrom(s.inbound[e.c], s.nextUuid) == s.inbound[e.c];
    assert s.inbound[e.c := s.inbound[e.c]] == s.inbound;
  }

  /** PUBACK and PUBCOMP free their id, and do nothing else: what is stored stays. */
  lemma AckHandled(s: State, e: Event)
    requires (e.ReceivePuback? || e.ReceivePubcomp?) && Enabled(s, e) && Inv(s)
    ensures Step(s, e).Running?
    ensures var s' := Step(s, e).s;
      s' == s.(clients := s.clients[e.c := s.clients[e.c].(ids := s.clients[e.c].ids - {e.id})],
               nextUuid := s'.nextUuid)
  {
    var c := e.c;
    assert ClientOk(s, c);
    var ids := s.clients[c].ids;
    AckMeaning(ConnOf(s, c), e.id, s.nextUuid);
    if e.id !in ids { assert ids - {e.id} == ids; }
    assert s.outbound[c] - {s.nextUuid} == s.outbound[c];
    assert s.outbound[c := s.outbound[c]] == s.outbound;
  }

  /** SUBSCRIBE adds each filter at its QoS, in order, starts a search for each, and leaves a SUBACK to be sent that
      has the packet's id and grants what was asked for. */
  lemma SubscribeHandled(s: State, e: Event) returns (ops: seq<SubOp>, finders: seq<Finder>)
    requires e.SubscribeTo? && Enabled(s, e) && !Fatal(e) && Inv(s)
    ensures |e.filters| == |e.qoss| == |ops| == |finders| && Step(s, e).Running?
    ensures forall i :: 0 <= i < |ops| ==> ops[i] == AddOp(e.c, e.filters[i], e.qoss[i])
    ensures forall i :: 0 <= i < |ops| ==> finders[i] == Finder(e.c, e.filters[i], e.qoss[i])
    ensures Step(s, e).s
         == s.(history := s.history + ops,
               intake := s.intake.(finders := s.intake.finders + multiset(finders),
                                   replying := s.intake.replying[e.c := Control(Suback(e.qoss), e.messageId)]))
  {
    assert ClientOk(s, e.c);
    ops := AddOps(e.c, e.filters, e.qoss);
    AddOpsMeaning(e.c, e.filters, e.qoss);
    finders := seq(|e.filters|, i requires 0 <= i < |e.filters| => Finder(e.c, e.filters[i], e.qoss[i]));
  }

  /** UNSUBSCRIBE removes the first of its topics only, and leaves an UNSUBACK with its id to be sent. */
  lemma UnsubscribeHandled(s: State, e: Event)
    requires e.UnsubscribeFrom? && Enabled(s, e) && !Fatal(e) && Inv(s)
    ensures e.filters != [] && Step(s, e).Running?
    ensures Step(s, e).s
         == s.(history := s.history + [DeleteOp(e.c, e.filters[0])],
               intake := s.intake.(replying := s.intake.replying[e.c := Control(Unsuback, e.messageId)]))
  {
    assert ClientOk(s, e.c);
  }

  /** PINGREQ leaves a PINGRESP to be sent. */
  lemma PingHandled(s: State, e: Event)
    requires e.Ping? && Enabled(s, e) && Inv(s)
    ensures Step(s, e).Running?
    ensures Step(s, e).s == s.(intake := s.intake.(replying := s.intake.replying[e.c := Control(Pingresp, 0)]))
  {
    assert ClientOk(s, e.c);
  }

  /** What was left to be sent goes to the end of the priority queue. */
  lemma ReplyQueued(s: State, e: Event)
    requires e.Reply? && Enabled(s, e) && Inv(s)
    ensures e.c in s.intake.replying && Step(s, e).Running?
    ensures Step(s, e).s
         == s.(clients := WithAnswers(s, e.c, s.clients[e.c].priority + [s.intake.replying[e.c]]),
               intake := s.intake.(replying := s.intake.replying - {e.c}))
  {
    assert ClientOk(s, e.c);
  }

  /** The message in front is sent, under the least free id at QoS 1 and 2, and shows that id in the store too. */
  lemma MessageSent(s: State, e: Event) returns (id: nat)
    requires e.Send? && Enabled(s, e) && Inv(s)
    ensures e.c in s.outbound && Step(s, e).Running?
    ensures var c, s', m := e.c, Step(s, e).s, s.clients[e.c].queue[0];
      c in s'.clients && c in s'.outbound
      && s' == s.(clients := s.clients[c := s'.clients[c]], outbound := s.outbound[c := s'.outbound[c]])
      && s'.clients[c] == s.clients[c].(queue := s.clients[c].queue[1..], ids := s'.clients[c].ids)
      && if m.qos == 1 || m.qos == 2 then
           (if SomeIdFree(s.clients[c].ids) then
              IsLeastFree(s.clients[c].ids, id) && Takes(s.clients[c].ids, s'.clients[c].ids, id, m.uuid)
            else id == 0 && s'.clients[c].ids == s.clients[c].ids)
           && (m.uuid in s.outbound[c] && s.outbound[c][m.uuid].PublishEntry? ==>
                 m.uuid in s'.outbound[c] && s'.outbound[c][m.uuid].PublishEntry?
                 && s'.outbound[c][m.uuid].m == s.outbound[c][m.uuid].m.(messageId := id))
         else s'.clients[c].ids == s.clients[c].ids && s'.outbound[c] == s.outbound[c]
  {
    assert ClientOk(s, e.c);
    id := SendMeaning(ConnOf(s, e.c));
  }

  // ---------------------------------------------------------------------------
  // Connections.

  /** A clean connection of a known client keeps its Client object and its packet ids, and starts with empty queues
      and stores. */
  lemma TakenOver(s: State, e: Event)
    requires e.Connect? && Enabled(s, e) && Inv(s) && e.clean && e.c in s.clients
    ensures var c, s' := e.c, ConnectStep(s, e);
      s'.clients
      == s.clients[c := ClientState(s.clients[c].handle, true, true, s.clients[c].ids, [], [])]
      && s'.inbound == s.inbound[c := map[]] && s'.outbound == s.outbound[c := map[]]
      && s'.history == s.history && s'.intake == s.intake && s'.work == s.work
  {
  }

  /** Any other client without a session to resume starts from nothing. */
  lemma Admitted(s: State, e: Event)
    requires e.Connect? && Enabled(s, e) && Inv(s) && e.c !in s.clients
    ensures var c, s' := e.c, ConnectStep(s, e);
      s'.clients == s.clients[c := ClientState(s.nextHandle, true, e.clean, map[], [], [])]
      && s'.inbound == s.inbound[c := map[]] && s'.outbound == s.outbound[c := map[]]
      && s'.history == s.history && s'.intake == s.intake
      && s'.work.pending == s.work.pending && s'.work.gathering == s.work.gathering
    ensures e.generated ==>
      var c, s' := e.c, ConnectStep(s, e);
      c in s'.work.greetings
      && var m := s'.work.greetings[c].m;
         m.topic == "$SYS/session_identifier" && m.qos == 1 && |m.payload| == |c|
         && forall i :: 0 <= i < |c| ==> m.payload[i] == c[i] as int % 256
    ensures !e.generated ==> ConnectStep(s, e).work == s.work
  {
    assert ClientOk(s, e.c);
  }

  /** A durable connection of a known client gets a new Client object and an empty id table. Everything stored is
      queued once, messages above QoS 0 marked as duplicates in queue and store, PUBRELs in the priority queue. */
  lemma Resumed(s: State, e: Event)
    requires e.Connect? && Enabled(s, e) && Inv(s) && !e.clean && e.c in s.clients
    ensures e.c in s.outbound && IsListing(e.publishes, IsPublish(s.outbound[e.c]))
    ensures IsListing(e.pubrels, IsPubrel(s.outbound[e.c]))
    ensures var c, was, s' := e.c, s.outbound[e.c], ConnectStep(s, e);
      c in s'.clients && c in s'.outbound
      && s' == s.(clients := s.clients[c := s'.clients[c]], outbound := s.outbound[c := s'.outbound[c]],
                  nextHandle := s.nextHandle + 1)
    ensures forall i :: 0 <= i < |e.publishes| ==>
      e.publishes[i] in s.outbound[e.c] && s.outbound[e.c][e.publishes[i]].PublishEntry?
    ensures forall i :: 0 <= i < |e.pubrels| ==>
      e.pubrels[i] in s.outbound[e.c] && s.outbound[e.c][e.pubrels[i]].PubrelEntry?
    ensures var client, was := ConnectStep(s, e).clients[e.c], s.outbound[e.c];
      client.handle == s.nextHandle && client.connected && !client.cleanSession && client.ids == map[]
      && |client.queue| == |e.publishes| && |client.priority| == |e.pubrels|
      && (forall i :: 0 <= i < |e.publishes| ==>
            var m := was[e.publishes[i]].m; client.queue[i] == if m.qos > 0 then m.(dup := true) else m)
      && (forall i :: 0 <= i < |e.pubrels| ==> client.priority[i] == Control(Pubrel, was[e.pubrels[i]].messageId))
    ensures var was, now := s.outbound[e.c], ConnectStep(s, e).outbound[e.c];
      now.Keys == was.Keys
      && forall u :: u in was ==>
           now[u] == if was[u].PublishEntry? && was[u].m.qos > 0
                     then PublishEntry(was[u].m.(dup := true), was[u].origin) else was[u]
  {
    assert ClientOk(s, e.c);
    ReplayMeaning(s.nextHandle, s.outbound[e.c], e.publishes, e.pubrels, s.depth);
  }

  /** The stop of a clean session forgets the client, its stores and its subscriptions; that of a durable one
      empties its queues only. */
  lemma Stopped(s: State, e: Event)
    requires e.Stop? && Enabled(s, e) && Inv(s)
    ensures Step(s, e).Running? && e.c in s.clients
    ensures var c, s', client := e.c, Step(s, e).s, s.clients[e.c];
      if client.cleanSession then
        s' == s.(clients := s.clients - {c}, history := s.history + [DeleteAllOp(c)],
                 inbound := s.inbound - {c}, outbound := s.outbound - {c})
      else s' == s.(clients := s.clients[c := client.(connected := false, queue := [], priority := [])])
  {
  }

  // ---------------------------------------------------------------------------
  // Work for recipients.

  /** Each client of a complete list gets one task, with the message's topic and payload at the listed QoS. */
  lemma Dispatched(s: State, e: Event, c: string)
    requires e.Dispatch? && Enabled(s, e) && Inv(s)
    ensures Step(s, e).Running? && e.g in s.work.gathering
    ensures var s', d, gather := Step(s, e).s, s.work.nextDelivery, s.work.gathering[e.g];
      ((d, c) in s'.work.pending <==> c in gather.list)
      && (c in gather.list ==>
            var t := s'.work.pending[(d, c)];
            t.topic == gather.topic && t.payload == gather.payload && t.qos == gather.list[c] && t.phase.Waiting?)
  {
    assert PendingOk(s, s.work.nextDelivery, c);
  }

  /** A search hands out one task for each retained topic the matcher accepts, with the retained message's topic and
      payload, at the retained QoS or the subscription's, whichever is lower. It takes place once. */
  lemma Searched(s: State, e: Event, k: nat)
    requires e.FindRetained? && Enabled(s, e) && Inv(s) && k < |e.topics|
    ensures Step(s, e).Running? && e.topics[k] in s.intake.retained && Match(Split(e.filter), Split(e.topics[k]))
    ensures var s', m, key := Step(s, e).s, s.intake.retained[e.topics[k]], (s.work.nextDelivery + k, e.c);
      key in s'.work.pending
      && var t := s'.work.pending[key];
         t.topic == m.topic && t.payload == m.payload && t.phase.Waiting?
         && t.qos <= m.qos && t.qos <= e.qos && (t.qos == m.qos || t.qos == e.qos)
    ensures Step(s, e).s.intake.finders == s.intake.finders - multiset{Finder(e.c, e.filter, e.qos)}
  {
    TopicFound(s, e, k);
    TaskFound(s, e, k);
  }

  lemma TopicFound(s: State, e: Event, k: nat)
    requires e.FindRetained? && Enabled(s, e) && k < |e.topics|
    ensures AllRetained(s, e.topics) && Match(Split(e.filter), Split(e.topics[k]))
  {
    assert e.topics[k] in e.topics;
  }

  lemma TaskFound(s: State, e: Event, k: nat)
    requires e.FindRetained? && k < |e.topics| && AllRetained(s, e.topics)
    ensures var key := (s.work.nextDelivery + k, e.c);
      key in FindRetainedStep(s, e).work.pending
      && FindRetainedStep(s, e).work.pending[key] == FoundTask(s, e.topics, e.qos, k)
  {
    var i: nat := s.work.nextDelivery + k;
    assert (i, e.c) in RetainedTasks(s, e);
    assert i - s.work.nextDelivery == k;
  }

  /** The look-up finds the Client object that is in the client list then, or nobody. */
  lemma LookedUp(s: State, e: Event)
    requires e.LookUp? && Enabled(s, e)
    ensures Step(s, e).Running?
    ensures PhaseOf(Step(s, e).s, e.d, e.c) == if e.c in s.clients then Found(s.clients[e.c].handle) else Missing
    ensures var s' := Step(s, e).s; s' == s.(work := s.work.(pending := s'.work.pending))
  {
  }

  /** A connected recipient at QoS 0 is sent the message at once; one that is not connected gets nothing. */
  lemma CheckedAtZero(s: State, e: Event)
    requires e.CheckConnected? && Enabled(s, e) && PhaseOf(s, e.d, e.c).Found?
    requires s.work.pending[(e.d, e.c)].qos == 0
    ensures Step(s, e).Running?
    ensures var s', t, handle := Step(s, e).s, s.work.pending[(e.d, e.c)], PhaseOf(s, e.d, e.c).handle;
      if e.c in s.clients && s.clients[e.c].connected && s.clients[e.c].handle == handle then
        PhaseOf(s', e.d, e.c) == Sending(handle, Message(t.copy, t.topic, t.payload, 0, false, false, 0))
      else (e.d, e.c) !in s'.work.pending
  {
  }

  /** Above QoS 0 the test decides only whether the message is sent after it has been stored. */
  lemma CheckedAboveZero(s: State, e: Event)
    requires e.CheckConnected? && Enabled(s, e) && PhaseOf(s, e.d, e.c).Found?
    requires s.work.pending[(e.d, e.c)].qos > 0
    ensures Step(s, e).Running?
    ensures var handle := PhaseOf(s, e.d, e.c).handle;
      PhaseOf(Step(s, e).s, e.d, e.c)
      == Tested(handle, e.c in s.clients && s.clients[e.c].connected && s.clients[e.c].handle == handle)
  {
  }

  /** The message stored for a recipient, and sent afterwards if it was connected. */
  lemma PersistedFor(s: State, e: Event)
    requires e.PersistFor? && Enabled(s, e) && Inv(s) && e.c in s.outbound
    ensures Step(s, e).Running? && s.nextUuid !in s.outbound[e.c]
    ensures var s', t, phase := Step(s, e).s, s.work.pending[(e.d, e.c)], PhaseOf(s, e.d, e.c);
      var m := Message(s.nextUuid, t.topic, t.payload, t.qos, false, false, 0);
      s'.outbound == s.outbound[e.c := With(s.outbound[e.c], s.nextUuid, PublishEntry(m, e.d))]
      && s'.clients == s.clients && s'.inbound == s.inbound
      && if phase.connected then PhaseOf(s', e.d, e.c) == Sending(phase.handle, m)
         else (e.d, e.c) !in s'.work.pending
  {
    assert PendingOk(s, e.d, e.c) && ClientOk(s, e.c);
  }

  /** A message on its way goes to the end of the recipient's queue if there is room, and is dropped if not. */
  lemma EnqueuedFor(s: State, e: Event)
    requires e.EnqueueFor? && Enabled(s, e) && Step(s, e).Running?
    ensures e.c in s.clients
    ensures var s', queue := Step(s, e).s, s.clients[e.c].queue;
      s' == s.(clients := s.clients[e.c := s.clients[e.c].(
                 queue := if |queue| < s.depth then queue + [PhaseOf(s, e.d, e.c).m] else queue)],
               work := s.work.(pending := s.work.pending - {(e.d, e.c)}))
  {
  }

  // ---------------------------------------------------------------------------
  // Frames.

  /** A string that is the bytes, one character each. */
  predicate SameText(text: string, bytes: seq<Bytes.Byte>)
  {
    |text| == |bytes| && forall i :: 0 <= i < |bytes| ==> text[i] as int == bytes[i]
  }

  /** What a frame is handled as, by the type number in its first byte: 3 PUBLISH, 4 PUBACK, 5 PUBREC, 6 PUBREL,
      7 PUBCOMP, 8 SUBSCRIBE, 10 UNSUBSCRIBE, 12 PINGREQ, each with what the packet holds. Any other packet is
      passed over. */
  lemma FrameMeaning(c: string, bytes: seq<Bytes.Byte>)
    requires Packets.ReadPacket(bytes).Got?
    ensures bytes != []
    ensures var r, p, t := Read(c, bytes), Packets.ReadPacket(bytes).packet, bytes[0] / 16;
      if t == 3 then
        p.Publish? && r.Handles? && r.e.ReceivePublish? && r.e.c == c && SameText(r.e.topic, p.topic)
        && r.e.payload == p.payload && r.e.qos == bytes[0] / 2 % 4 && r.e.messageId == p.messageId
        && (r.e.dup <==> bytes[0] / 8 % 2 == 1) && (r.e.retain <==> bytes[0] % 2 == 1)
      else if t == 4 then p.IdOnly? && r == Handles(ReceivePuback(c, p.messageId))
      else if t == 5 then p.IdOnly? && r == Handles(ReceivePubrec(c, p.messageId))
      else if t == 6 then p.IdOnly? && r == Handles(ReceivePubrel(c, p.messageId))
      else if t == 7 then p.IdOnly? && r == Handles(ReceivePubcomp(c, p.messageId))
      else if t == 8 then
        p.Subscribe? && r.Handles? && r.e.SubscribeTo? && r.e.c == c && r.e.messageId == p.messageId
        && r.e.qoss == p.qoss && |r.e.filters| == |p.topics|
        && forall i :: 0 <= i < |p.topics| ==> SameText(r.e.filters[i], p.topics[i])
      else if t == 10 then
        p.Unsubscribe? && r.Handles? && r.e.UnsubscribeFrom? && r.e.c == c && r.e.messageId == p.messageId
        && |r.e.filters| == |p.topics|
        && forall i :: 0 <= i < |p.topics| ==> SameText(r.e.filters[i], p.topics[i])
      else if t == 12 then r == Handles(Ping(c))
      else r.Ignores?
  {
    Wire.KindRead(bytes);
  }

  /** A new connection survives its first frame exactly if that is a packet of type 1, or its length never ends. */
  lemma FirstFrameMeaning(bytes: seq<Bytes.Byte>)
    ensures Fatal(FirstFrame(bytes)) <==>
      !(Packets.ReadPacket(bytes).Hangs? || (Packets.ReadPacket(bytes).Got? && bytes != [] && bytes[0] / 16 == 1))
  {
    if Packets.ReadPacket(bytes).Got? { Wire.KindRead(bytes); }
  }
}
