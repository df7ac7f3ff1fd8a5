/** What goes into a client's two channels over a run, and in which order it leaves them. */
module BrokerQueues {
  import opened Messages
  import opened Session
  import opened Broker
  import opened BrokerSafety
  import opened BrokerRuns
  import opened BrokerMoves
  import opened BrokerAnswers

  // ---------------------------------------------------------------------------
  // First in, first out.

  /** The message the step offers to c's queue, if there is room for it. */
  function Enters(s: State, e: Event, c: string): seq<Message>
  {
    if c !in s.clients || |s.clients[c].queue| >= s.depth then []
    else if e.EnqueueFor? && e.c == c && PhaseOf(s, e.d, c).Sending? then [PhaseOf(s, e.d, c).m]
    else if e.Greet? && e.c == c && c in s.work.greetings then [s.work.greetings[c].m]
    else []
  }

  /** The message the step takes out to send it. */
  function Leaves(s: State, e: Event, c: string): seq<Message>
  {
    if e == Send(c) && c in s.clients && s.clients[c].queue != [] then [s.clients[c].queue[0]] else []
  }

  /** The control packet the step offers to c's priority queue, if there is room for it: the answer to a packet, or a
      reply that was left to be sent. */
  function ControlEnters(s: State, e: Event, c: string): seq<Control>
  {
    var p := Content(e);
    if c !in s.clients || |s.clients[c].priority| >= s.depth then []
    else if p.ReceivePublish? && p.c == c && p.qos == 1 then [Control(Puback, p.messageId)]
    else if p.ReceivePublish? && p.c == c && p.qos == 2 then [Control(Pubrec, p.messageId)]
    else if p.ReceivePubrec? && p.c == c && p.id in s.clients[c].ids then [Control(Pubrel, p.id)]
    else if p.ReceivePubrel? && p.c == c then [Control(Pubcomp, p.id)]
    else if p.Reply? && p.c == c && c in s.intake.replying then [s.intake.replying[c]]
    else []
  }

  function ControlLeaves(s: State, e: Event, c: string): seq<Control>
  {
    if e == SendControl(c) && c in s.clients && s.clients[c].priority != [] then [s.clients[c].priority[0]] else []
  }

  /** A connection or a stop of c, which makes new channels. */
  predicate Renews(e: Event, c: string)
  {
    (e.Connect? || e.Stop?) && e.c == c
  }

  /** What leaves was in front, and what enters is last. */
  ghost predicate InOrder<T>(was: seq<T>, enters: seq<T>, leaves: seq<T>, now: seq<T>)
  {
    was + enters == leaves + now
  }

  /** Both channels of c at once. */
  ghost predicate ChannelsInOrder(s: State, e: Event, s': State, c: string)
  {
    c in s'.clients
    && (c in s.clients ==>
          InOrder(s.clients[c].queue, Enters(s, e, c), Leaves(s, e, c), s'.clients[c].queue)
          && InOrder(s.clients[c].priority, ControlEnters(s, e, c), ControlLeaves(s, e, c), s'.clients[c].priority))
  }

  lemma FrontLeaves<T>(queue: seq<T>)
    requires queue != []
    ensures queue == [queue[0]] + queue[1..]
  {
  }

  lemma NothingHappens(s: State, e: Event, s': State, c: string)
    requires c in s.clients && c in s'.clients
    requires s'.clients[c].queue == s.clients[c].queue && s'.clients[c].priority == s.clients[c].priority
    requires Enters(s, e, c) == [] && Leaves(s, e, c) == []
    requires ControlEnters(s, e, c) == [] && ControlLeaves(s, e, c) == []
    ensures ChannelsInOrder(s, e, s', c)
  {
    var queue, priority := s.clients[c].queue, s.clients[c].priority;
    assert queue + [] == queue == [] + queue && priority + [] == priority == [] + priority;
  }

  lemma OnlyControlEnters(s: State, e: Event, s': State, c: string, control: Control)
    requires c in s.clients && c in s'.clients
    requires s'.clients[c] == s.clients[c].(priority := Answered(s, c, control.kind, control.messageId),
                                            ids := s'.clients[c].ids)
    requires Enters(s, e, c) == [] && Leaves(s, e, c) == [] && ControlLeaves(s, e, c) == []
    requires ControlEnters(s, e, c) == if |s.clients[c].priority| < s.depth then [control] else []
    ensures ChannelsInOrder(s, e, s', c)
  {
    var queue, priority := s.clients[c].queue, s.clients[c].priority;
    assert queue + [] == queue == [] + queue && priority + [] == priority == [] + priority;
    assert [] + (priority + [control]) == priority + [control];
  }

  lemma PublishInOrder(s: State, e: Event)
    requires e.ReceivePublish? && Enabled(s, e) && Inv(s)
    ensures Step(s, e).Running? && ChannelsInOrder(s, e, Step(s, e).s, e.c)
  {
    PublishAnswered(s, e);
    if e.qos == 1 {
      OnlyControlEnters(s, e, Step(s, e).s, e.c, Control(Puback, e.messageId));
    } else if e.qos == 2 {
      OnlyControlEnters(s, e, Step(s, e).s, e.c, Control(Pubrec, e.messageId));
    } else {
      NothingHappens(s, e, Step(s, e).s, e.c);
    }
  }

  lemma PubrecInOrder(s: State, e: Event)
    requires e.ReceivePubrec? && Enabled(s, e) && Inv(s)
    ensures Step(s, e).Running? && ChannelsInOrder(s, e, Step(s, e).s, e.c)
  {
    PubrecAnswered(s, e);
    if e.id in s.clients[e.c].ids {
      OnlyControlEnters(s, e, Step(s, e).s, e.c, Control(Pubrel, e.id));
    } else {
      NothingHappens(s, e, Step(s, e).s, e.c);
    }
  }

  lemma PubrelInOrder(s: State, e: Event)
    requires e.ReceivePubrel? && Enabled(s, e) && Inv(s)
    ensures Step(s, e).Running? && ChannelsInOrder(s, e, Step(s, e).s, e.c)
  {
    PubrelAnswered(s, e);
    OnlyControlEnters(s, e, Step(s, e).s, e.c, Control(Pubcomp, e.id));
  }

  lemma ReplyInOrder(s: State, e: Event)
    requires e.Reply? && Enabled(s, e) && Inv(s)
    ensures Step(s, e).Running? && ChannelsInOrder(s, e, Step(s, e).s, e.c)
  {
    ReplyQueued(s, e);
    OnlyControlEnters(s, e, Step(s, e).s, e.c, s.intake.replying[e.c]);
  }

  lemma AckInOrder(s: State, e: Event)
    requires (e.ReceivePuback? || e.ReceivePubcomp?) && Enabled(s, e) && Inv(s)
    ensures Step(s, e).Running? && ChannelsInOrder(s, e, Step(s, e).s, e.c)
  {
    AckHandled(s, e);
    NothingHappens(s, e, Step(s, e).s, e.c);
  }

  lemma SubscribeInOrder(s: State, e: Event)
    requires (e.SubscribeTo? || e.UnsubscribeFrom? || e.Ping?) && Enabled(s, e) && !Fatal(e) && Inv(s)
    ensures Step(s, e).Running? && ChannelsInOrder(s, e, Step(s, e).s, e.c)
  {
    if e.SubscribeTo? {
      var ops, finders := SubscribeHandled(s, e);
    } else if e.UnsubscribeFrom? {
      UnsubscribeHandled(s, e);
    } else {
      PingHandled(s, e);
    }
    NothingHappens(s, e, Step(s, e).s, e.c);
  }

  lemma SendInOrder(s: State, e: Event)
    requires e.Send? && Enabled(s, e) && Inv(s)
    ensures Step(s, e).Running? && ChannelsInOrder(s, e, Step(s, e).s, e.c)
  {
    var id := MessageSent(s, e);
    var queue, priority := s.clients[e.c].queue, s.clients[e.c].priority;
    FrontLeaves(queue);
    assert queue + [] == queue && priority + [] == priority == [] + priority;
  }

  lemma SendControlInOrder(s: State, e: Event)
    requires e.SendControl? && Enabled(s, e) && Inv(s)
    ensures Step(s, e).Running? && ChannelsInOrder(s, e, Step(s, e).s, e.c)
  {
    assert ClientOk(s, e.c);
    var queue, priority := s.clients[e.c].queue, s.clients[e.c].priority;
    FrontLeaves(priority);
    assert priority + [] == priority && queue + [] == queue == [] + queue;
  }

  lemma EnqueueInOrder(s: State, e: Event)
    requires e.EnqueueFor? && Enabled(s, e) && Inv(s) && Step(s, e).Running?
    ensures ChannelsInOrder(s, e, Step(s, e).s, e.c)
  {
    EnqueuedFor(s, e);
    var queue, priority := s.clients[e.c].queue, s.clients[e.c].priority;
    assert queue + [] == queue == [] + queue && priority + [] == priority == [] + priority;
    var m := PhaseOf(s, e.d, e.c).m;
    assert [] + (queue + [m]) == queue + [m];
  }

  lemma GreetInOrder(s: State, e: Event)
    requires e.Greet? && Enabled(s, e) && Inv(s) && Step(s, e).Running?
    ensures ChannelsInOrder(s, e, Step(s, e).s, e.c)
  {
    var queue, priority := s.clients[e.c].queue, s.clients[e.c].priority;
    assert queue + [] == queue == [] + queue && priority + [] == priority == [] + priority;
    var m := s.work.greetings[e.c].m;
    assert [] + (queue + [m]) == queue + [m];
  }

  lemma PacketInOrder(s: State, e: Event)
    requires IsPacket(e) && Enabled(s, e) && Inv(s) && !Fatal(e)
    ensures Step(s, e).Running? && ChannelsInOrder(s, e, Step(s, e).s, e.c)
  {
    if e.ReceivePublish? {
      PublishInOrder(s, e);
    } else if e.ReceivePubrec? {
      PubrecInOrder(s, e);
    } else if e.ReceivePubrel? {
      PubrelInOrder(s, e);
    } else if e.ReceivePuback? || e.ReceivePubcomp? {
      AckInOrder(s, e);
    } else {
      SubscribeInOrder(s, e);
    }
  }

  /** One step at its own client. */
  lemma OwnChannels(s: State, e: Event)
    requires (AtClient(e) || e.EnqueueFor? || e.Greet?) && Enabled(s, e) && Inv(s) && Step(s, e).Running?
    ensures ChannelsInOrder(s, e, Step(s, e).s, e.c)
  {
    if e.EnqueueFor? {
      EnqueueInOrder(s, e);
    } else if e.Greet? {
      GreetInOrder(s, e);
    } else if e.Reply? {
      ReplyInOrder(s, e);
    } else if e.Send? {
      SendInOrder(s, e);
    } else if e.SendControl? {
      SendControlInOrder(s, e);
    } else {
      InvStep(s, e);
      PacketInOrder(s, e);
    }
  }

  /** The client whose own channels the step can move, if any. */
  predicate IsAt(e: Event, c: string)
  {
    (AtClient(Content(e)) || e.EnqueueFor? || e.Greet?) && Content(e).c == c
  }

  lemma AckLeavesOthers(s: State, e: Event, c: string)
    requires e.ReceivePuback? || e.ReceivePubrec? || e.ReceivePubcomp? || e.Send? || e.SendControl?
    requires Ready(s, e) && c in s.clients && e.c != c
    ensures c in ClientStep(s, e).clients && ClientStep(s, e).clients[c] == s.clients[c]
  {
  }

  lemma ClientLeavesOthers(s: State, e: Event, c: string)
    requires AtClient(e) && Ready(s, e) && c in s.clients && e.c != c
    ensures c in ClientStep(s, e).clients && ClientStep(s, e).clients[c] == s.clients[c]
  {
    if e.ReceivePuback? || e.ReceivePubrec? || e.ReceivePubcomp? || e.Send? || e.SendControl? {
      AckLeavesOthers(s, e, c);
    }
  }

  lemma TaskLeavesOthers(s: State, e: Event, c: string)
    requires AtTask(e) && Enabled(s, e) && TaskStep(s, e).Running? && c in s.clients && !(e.EnqueueFor? && e.c == c)
    ensures var s' := TaskStep(s, e).s; c in s'.clients && s'.clients[c] == s.clients[c]
  {
  }

  lemma OwnLeavesOthers(s: State, e: Event, c: string)
    requires e.Connect? || e.Stop? || e.Greet?
    requires Enabled(s, e) && OwnStep(s, e).Running? && c in s.clients && e.c != c
    ensures var s' := OwnStep(s, e).s; c in s'.clients && s'.clients[c] == s.clients[c]
  {
  }

  lemma OthersUnmoved(s: State, e: Event, c: string)
    requires Enabled(s, e) && Step(s, e).Running? && c in s.clients && !Renews(e, c) && !IsAt(e, c)
    ensures var s' := Step(s, e).s; c in s'.clients && s'.clients[c] == s.clients[c]
  {
    if AtTask(e) {
      TaskLeavesOthers(s, e, c);
    } else if AtClient(Content(e)) {
      ClientLeavesOthers(s, Content(e), c);
    } else if AtDelivery(e) {
      DeliveryStepShape(s, e);
    } else if e.Connect? || e.Stop? || e.Greet? {
      OwnLeavesOthers(s, e, c);
    }
  }

  /** A frame does what the packet in it does. */
  lemma FrameIsPacket(s: State, e: Event)
    requires e.Frame? && Enabled(s, e) && Read(e.c, e.bytes).Handles?
    ensures IsPacket(Content(e)) && Enabled(s, Content(e)) && Content(e).c == e.c
    ensures Step(s, e) == Step(s, Content(e))
  {
  }

  lemma FrameMovesAsPacket(s: State, e: Event, s': State)
    requires e.Frame? && IsPacket(Content(e)) && ChannelsInOrder(s, Content(e), s', e.c)
    ensures ChannelsInOrder(s, e, s', e.c)
  {
  }

  lemma FrameInOrder(s: State, e: Event)
    requires e.Frame? && Enabled(s, e) && Inv(s) && Step(s, e).Running? && Read(e.c, e.bytes).Handles?
    ensures ChannelsInOrder(s, e, Step(s, e).s, e.c)
  {
    FrameIsPacket(s, e);
    OwnChannels(s, Content(e));
    FrameMovesAsPacket(s, e, Step(s, Content(e)).s);
  }

  /** One step, at any client. */
  lemma ChannelStep(s: State, e: Event, c: string)
    requires Enabled(s, e) && Inv(s) && Step(s, e).Running? && c in s.clients && !Renews(e, c)
    ensures ChannelsInOrder(s, e, Step(s, e).s, c)
  {
    if !IsAt(e, c) {
      OthersUnmoved(s, e, c);
      NothingHappens(s, e, Step(s, e).s, c);
    } else if e.Frame? {
      FrameInOrder(s, e);
    } else {
      OwnChannels(s, e);
    }
  }

  /** What entered c's queue from state i to state n, in that order. */
  function Entered(ss: seq<State>, events: seq<Event>, i: nat, n: nat, c: string): seq<Message>
    requires i <= n < |ss| && n <= |events|
  {
    if i == n then [] else Entered(ss, events, i, n - 1, c) + Enters(ss[n - 1], events[n - 1], c)
  }

  function Left(ss: seq<State>, events: seq<Event>, i: nat, n: nat, c: string): seq<Message>
    requires i <= n < |ss| && n <= |events|
  {
    if i == n then [] else Left(ss, events, i, n - 1, c) + Leaves(ss[n - 1], events[n - 1], c)
  }

  function ControlsEntered(ss: seq<State>, events: seq<Event>, i: nat, n: nat, c: string): seq<Control>
    requires i <= n < |ss| && n <= |events|
  {
    if i == n then [] else ControlsEntered(ss, events, i, n - 1, c) + ControlEnters(ss[n - 1], events[n - 1], c)
  }

  function ControlsLeft(ss: seq<State>, events: seq<Event>, i: nat, n: nat, c: string): seq<Control>
    requires i <= n < |ss| && n <= |events|
  {
    if i == n then [] else ControlsLeft(ss, events, i, n - 1, c) + ControlLeaves(ss[n - 1], events[n - 1], c)
  }

  lemma OrderOneMore<T>(first: seq<T>, entered: seq<T>, left: seq<T>, was: seq<T>, enters: seq<T>, leaves: seq<T>,
                        now: seq<T>)
    requires InOrder(first, entered, left, was) && InOrder(was, enters, leaves, now)
    ensures InOrder(first, entered + enters, left + leaves, now)
  {
    assert first + (entered + enters) == first + entered + enters;
    assert left + was + enters == left + (was + enters);
    assert left + (leaves + now) == left + leaves + now;
  }

  lemma ChannelAt(ss: seq<State>, events: seq<Event>, k: nat, c: string)
    requires IsTrace(ss, events) && Inv(ss[0]) && k + 1 < |ss| && c in ss[k].clients && !Renews(events[k], c)
    ensures ChannelsInOrder(ss[k], events[k], ss[k + 1], c)
  {
    InvAt(ss, events, k);
    assert StepAt(ss, events, k);
    ChannelGoes(ss[k], events[k], ss[k + 1], c);
  }

  lemma ChannelGoes(s: State, e: Event, s': State, c: string)
    requires Goes(s, e, s') && Inv(s) && c in s.clients && !Renews(e, c)
    ensures ChannelsInOrder(s, e, s', c)
  {
    ChannelStep(s, e, c);
    assert s' == Step(s, e).s;
  }

  /** Over every run between two connections or stops of a client, what was in its queue and what entered it, in
      that order, is what was sent from it and what is in it still, in that order; and the same holds of its
      priority queue. */
  lemma {:induction false} FirstInFirstOut(ss: seq<State>, events: seq<Event>, i: nat, n: nat, c: string)
    requires IsTrace(ss, events) && Inv(ss[0]) && i <= n < |ss| && c in ss[i].clients
    requires forall k :: i <= k < n ==> !Renews(events[k], c)
    ensures c in ss[n].clients
    ensures ss[i].clients[c].queue + Entered(ss, events, i, n, c) == Left(ss, events, i, n, c) + ss[n].clients[c].queue
    ensures ss[i].clients[c].priority + ControlsEntered(ss, events, i, n, c)
         == ControlsLeft(ss, events, i, n, c) + ss[n].clients[c].priority
  {
    var first := ss[i].clients[c];
    if i == n {
      assert first.queue + [] == first.queue == [] + first.queue;
      assert first.priority + [] == first.priority == [] + first.priority;
    } else {
      var m := n - 1;
      FirstInFirstOut(ss, events, i, m, c);
      OneMoreInOrder(ss, events, i, m, c);
    }
  }

  lemma OneMoreInOrder(ss: seq<State>, events: seq<Event>, i: nat, m: nat, c: string)
    requires IsTrace(ss, events) && Inv(ss[0]) && i <= m && m + 1 < |ss|
    requires c in ss[i].clients && c in ss[m].clients && !Renews(events[m], c)
    requires InOrder(ss[i].clients[c].queue, Entered(ss, events, i, m, c), Left(ss, events, i, m, c),
                     ss[m].clients[c].queue)
    requires InOrder(ss[i].clients[c].priority, ControlsEntered(ss, events, i, m, c),
                     ControlsLeft(ss, events, i, m, c), ss[m].clients[c].priority)
    ensures c in ss[m + 1].clients
    ensures InOrder(ss[i].clients[c].queue, Entered(ss, events, i, m + 1, c), Left(ss, events, i, m + 1, c),
                    ss[m + 1].clients[c].queue)
    ensures InOrder(ss[i].clients[c].priority, ControlsEntered(ss, events, i, m + 1, c),
                    ControlsLeft(ss, events, i, m + 1, c), ss[m + 1].clients[c].priority)
  {
    ChannelAt(ss, events, m, c);
    var first, was, now, s, e := ss[i].clients[c], ss[m].clients[c], ss[m + 1].clients[c], ss[m], events[m];
    OrderOneMore(first.queue, Entered(ss, events, i, m, c), Left(ss, events, i, m, c), was.queue,
                 Enters(s, e, c), Leaves(s, e, c), now.queue);
    OrderOneMore(first.priority, ControlsEntered(ss, events, i, m, c), ControlsLeft(ss, events, i, m, c),
                 was.priority, ControlEnters(s, e, c), ControlLeaves(s, e, c), now.priority);
  }

  // ---------------------------------------------------------------------------
  // What enters is what was published.

  /** A message on its way is its task's. */
  ghost predicate Faithful(s: State, d: nat, c: string)
  {
    PhaseOf(s, d, c).Sending? ==>
      var t, m := s.work.pending[(d, c)], PhaseOf(s, d, c).m;
      m.topic == t.topic && m.payload == t.payload && m.qos == t.qos && !m.dup && !m.retain && m.messageId == 0
  }

  lemma FaithfulTaskStep(s: State, e: Event)
    requires AtTask(e) && Enabled(s, e) && Inv(s) && Step(s, e).Running?
    ensures Faithful(Step(s, e).s, e.d, e.c)
  {
    if e.CheckConnected? {
      if s.work.pending[(e.d, e.c)].qos == 0 { CheckedAtZero(s, e); } else { CheckedAboveZero(s, e); }
    } else if e.PersistFor? {
      PersistedFor(s, e);
      PendingStep(s, e, e.d, e.c);
    } else if e.LookUp? {
      LookedUp(s, e);
    }
  }

  lemma FaithfulStep(s: State, e: Event, d: nat, c: string)
    requires Enabled(s, e) && Inv(s) && Step(s, e).Running? && Faithful(s, d, c)
    ensures Faithful(Step(s, e).s, d, c)
  {
    if AtTask(e) && e.d == d && e.c == c {
      FaithfulTaskStep(s, e);
    } else {
      PendingStep(s, e, d, c);
    }
  }

  lemma FaithfulGoes(s: State, e: Event, s': State, d: nat, c: string)
    requires Goes(s, e, s') && Inv(s) && Faithful(s, d, c)
    ensures Faithful(s', d, c)
  {
    FaithfulStep(s, e, d, c);
    assert s' == Step(s, e).s;
  }

  lemma {:induction false} FaithfulAt(ss: seq<State>, events: seq<Event>, i: nat, n: nat, d: nat, c: string)
    requires IsTrace(ss, events) && Inv(ss[0]) && i <= n < |ss| && Faithful(ss[i], d, c)
    ensures Faithful(ss[n], d, c)
  {
    if i < n {
      var m := n - 1;
      FaithfulAt(ss, events, i, m, d, c);
      InvAt(ss, events, m);
      assert StepAt(ss, events, m);
      FaithfulGoes(ss[m], events[m], ss[m + 1], d, c);
    }
  }

  /** The task is there, as it was apart from its phase. */
  predicate SameTask(s: State, d: nat, c: string, t: Task)
  {
    (d, c) in s.work.pending && s.work.pending[(d, c)] == t.(phase := PhaseOf(s, d, c))
  }

  lemma TaskGoes(s: State, e: Event, s': State, d: nat, c: string)
    requires Goes(s, e, s') && Inv(s)
    ensures TaskMoved(s, e, s', d, c)
  {
    PendingStep(s, e, d, c);
    assert s' == Step(s, e).s;
  }

  /** A task keeps its message, and once it is done it does not come back. */
  lemma {:induction false} SameTaskAt(ss: seq<State>, events: seq<Event>, i: nat, n: nat, d: nat, c: string, t: Task)
    requires IsTrace(ss, events) && Inv(ss[0]) && i <= n < |ss| && SameTask(ss[i], d, c, t)
    ensures d < ss[n].work.nextDelivery
    ensures (d, c) in ss[n].work.pending ==> SameTask(ss[n], d, c, t)
  {
    InvAt(ss, events, i);
    assert PendingOk(ss[i], d, c);
    if i < n {
      var m := n - 1;
      SameTaskAt(ss, events, i, m, d, c, t);
      InvAt(ss, events, m);
      assert StepAt(ss, events, m);
      TaskGoes(ss[m], events[m], ss[m + 1], d, c);
    }
  }

  lemma DispatchedAt(s: State, e: Event, s': State, c: string)
    requires e.Dispatch? && Goes(s, e, s') && Inv(s) && e.g in s.work.gathering && c in s.work.gathering[e.g].list
    ensures var gather := s.work.gathering[e.g];
      SameTask(s', s.work.nextDelivery, c, TaskFor(s, gather, c)) && PhaseOf(s', s.work.nextDelivery, c).Waiting?
  {
    Dispatched(s, e, c);
    assert s' == DispatchStep(s, e.g);
  }

  /** What a delivery sends to a recipient, whenever it does so: the topic and payload of the list handed out by
      event i, at the listed QoS, neither a duplicate nor marked as retained, and without an id yet. */
  lemma SentAsPublished(ss: seq<State>, events: seq<Event>, i: nat, k: nat, c: string)
    requires IsTrace(ss, events) && Inv(ss[0]) && i < k < |ss| && k < |events| && events[i].Dispatch?
    requires events[i].g in ss[i].work.gathering && c in ss[i].work.gathering[events[i].g].list
    requires events[k] == EnqueueFor(ss[i].work.nextDelivery, c) && Enabled(ss[k], events[k])
    ensures var gather, m := ss[i].work.gathering[events[i].g], PhaseOf(ss[k], ss[i].work.nextDelivery, c).m;
      m.topic == gather.topic && m.payload == gather.payload && m.qos == gather.list[c]
      && !m.dup && !m.retain && m.messageId == 0
  {
    var d, t := ss[i].work.nextDelivery, TaskFor(ss[i], ss[i].work.gathering[events[i].g], c);
    InvAt(ss, events, i);
    assert StepAt(ss, events, i);
    DispatchedAt(ss[i], events[i], ss[i + 1], c);
    SameTaskAt(ss, events, i + 1, k, d, c, t);
    FaithfulAt(ss, events, i + 1, k, d, c);
  }

  // ---------------------------------------------------------------------------
  // What becomes of a recipient at QoS 0.

  /** The Client object that was found is not connected. */
  predicate NotConnected(s: State, d: nat, c: string)
  {
    PhaseOf(s, d, c).Found?
    && !(c in s.clients && s.clients[c].connected && s.clients[c].handle == PhaseOf(s, d, c).handle)
  }

  lemma DoneAtZero(s: State, e: Event, s': State, d: nat, c: string)
    requires Goes(s, e, s') && Inv(s) && (d, c) in s.work.pending && s.work.pending[(d, c)].qos == 0
    requires (d, c) !in s'.work.pending
    ensures e == EnqueueFor(d, c) || (e == CheckConnected(d, c) && NotConnected(s, d, c))
  {
    TaskGoes(s, e, s', d, c);
    assert PendingOk(s, d, c);
    if e == CheckConnected(d, c) {
      CheckedAtZero(s, e);
    }
  }

  /** A recipient at QoS 0 that is no longer owed the message was either sent it, or found not to be connected. */
  lemma {:induction false} ZeroFate(ss: seq<State>, events: seq<Event>, i: nat, n: nat, d: nat, c: string, t: Task)
    returns (j: nat)
    requires IsTrace(ss, events) && Inv(ss[0]) && i <= n < |ss| && SameTask(ss[i], d, c, t) && t.qos == 0
    ensures (d, c) !in ss[n].work.pending ==>
      i <= j < n
      && (events[j] == EnqueueFor(d, c) || (events[j] == CheckConnected(d, c) && NotConnected(ss[j], d, c)))
  {
    if i == n {
      j := 0;
    } else {
      var m := n - 1;
      j := ZeroFate(ss, events, i, m, d, c, t);
      SameTaskAt(ss, events, i, m, d, c, t);
      if (d, c) in ss[m].work.pending && (d, c) !in ss[n].work.pending {
        j := m;
        InvAt(ss, events, m);
        assert StepAt(ss, events, m);
        DoneAtZero(ss[m], events[m], ss[m + 1], d, c);
      }
    }
  }
}
