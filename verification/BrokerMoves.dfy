/** What one step of the broker does to each part of its state, and what it leaves alone. */
module BrokerMoves {
  import opened SubscriptionIndex
  import opened Session
  import opened Broker

  ghost predicate SameSeat(s: State, s': State, c: string)
  {
    (c in s'.clients <==> c in s.clients)
    && (c in s.clients ==> s'.clients[c].handle == s.clients[c].handle
                           && s'.clients[c].cleanSession == s.clients[c].cleanSession
                           && s'.clients[c].connected == s.clients[c].connected)
  }

  ghost predicate SameAround(s: State, s': State, c: string)
  {
    SameSeat(s, s', c) && s'.work == s.work && s'.nextHandle == s.nextHandle && s'.loose == s.loose
    && s'.depth == s.depth
  }

  lemma AckStepShape(s: State, e: Event, c: string)
    requires e.ReceivePuback? || e.ReceivePubrec? || e.ReceivePubcomp? || e.Send? || e.SendControl?
    requires Ready(s, e)
    ensures SameAround(s, ClientStep(s, e), c)
  {
  }

  lemma ClientStepShape(s: State, e: Event, c: string)
    requires AtClient(e) && Ready(s, e)
    ensures SameAround(s, ClientStep(s, e), c)
  {
    if e.ReceivePuback? || e.ReceivePubrec? || e.ReceivePubcomp? || e.Send? || e.SendControl? {
      AckStepShape(s, e, c);
    }
  }

  lemma TaskStepShape(s: State, e: Event, c: string)
    requires AtTask(e) && Enabled(s, e) && TaskStep(s, e).Running?
    ensures var s' := TaskStep(s, e).s;
      SameSeat(s, s', c) && s'.work == s.work.(pending := s'.work.pending) && s'.history == s.history
      && s'.nextHandle == s.nextHandle && s'.loose == s.loose && s'.intake == s.intake
      && s'.depth == s.depth
  {
  }

  lemma DeliveryStepShape(s: State, e: Event)
    requires AtDelivery(e) && Enabled(s, e) && DeliveryStep(s, e).Running?
    ensures var s' := DeliveryStep(s, e).s;
      s'.clients == s.clients && s'.inbound == s.inbound && s'.outbound == s.outbound && s'.history == s.history
      && s'.nextHandle == s.nextHandle && s'.loose == s.loose && s'.intake.retained == s.intake.retained
      && s'.work.greetings == s.work.greetings && s'.depth == s.depth
  {
  }

  /** The subscription operations of one step. */
  function NewOps(s: State, e: Event): seq<SubOp>
  {
    match Content(e)
    case SubscribeTo(c, filters, qoss, _) => if |filters| == |qoss| then AddOps(c, filters, qoss) else []
    case UnsubscribeFrom(c, filters, _) => if filters != [] then [DeleteOp(c, filters[0])] else []
    case Stop(c) => if c in s.clients && s.clients[c].cleanSession then [DeleteAllOp(c)] else []
    case _ => []
  }

  lemma ClientStepHistory(s: State, e: Event)
    requires AtClient(e) && Ready(s, e)
    ensures ClientStep(s, e).history == s.history + NewOps(s, e)
  {
    if !e.SubscribeTo? && !e.UnsubscribeFrom? {
      assert s.history + [] == s.history;
    }
  }

  lemma OwnStepHistory(s: State, e: Event)
    requires e.Connect? || e.Stop? || e.Greet?
    requires Enabled(s, e) && OwnStep(s, e).Running?
    ensures OwnStep(s, e).s.history == s.history + NewOps(s, e)
  {
    assert s.history + [] == s.history;
  }

  lemma HistoryStep(s: State, e: Event)
    requires Enabled(s, e) && Step(s, e).Running?
    ensures Content(e).SubscribeTo? ==> |Content(e).filters| == |Content(e).qoss|
    ensures Step(s, e).s.history == s.history + NewOps(s, e)
  {
    assert s.history + [] == s.history;
    if AtTask(e) {
      TaskStepShape(s, e, e.c);
      assert NewOps(s, e) == [];
    } else if AtClient(Content(e)) {
      ClientStepHistory(s, Content(e));
      assert NewOps(s, e) == NewOps(s, Content(e));
    } else if AtDelivery(e) {
      assert NewOps(s, e) == [];
      DeliveryStepShape(s, e);
    } else if e.Connect? || e.Stop? || e.Greet? {
      OwnStepHistory(s, e);
    }
  }

  /** The task's phase changes only in its own steps. */
  ghost predicate Moves(s: State, e: Event, d: nat, c: string, t: Task, t': Task)
  {
    t' == t.(phase := t'.phase)
    && if !AtTask(e) || e.d != d || e.c != c then t' == t
       else match e
         case LookUp(_, _) => t'.phase == if c in s.clients then Found(s.clients[c].handle) else Missing
         case CheckConnected(_, _) =>
           t.phase.Found?
           && if t.qos > 0 then t'.phase.Tested? && t'.phase.handle == t.phase.handle
              else t'.phase.Sending? && t'.phase.handle == t.phase.handle
         case PersistFor(_, _) => t.phase.Tested? && t'.phase.Sending? && t'.phase.handle == t.phase.handle
         case EnqueueFor(_, _) => false
  }

  /** The steps a task can end with. */
  predicate Finishes(s: State, e: Event, d: nat, c: string)
    requires (d, c) in s.work.pending
  {
    AtTask(e) && e.d == d && e.c == c
    && (e.EnqueueFor? || (e.PersistFor? && !s.work.pending[(d, c)].phase.Sending?)
        || (e.CheckConnected? && s.work.pending[(d, c)].qos == 0))
  }

  lemma TaskStepMoves(s: State, e: Event, d: nat, c: string)
    requires AtTask(e) && Enabled(s, e) && TaskStep(s, e).Running?
    ensures var s' := TaskStep(s, e).s;
      if (d, c) in s'.work.pending then
        (d, c) in s.work.pending && Moves(s, e, d, c, s.work.pending[(d, c)], s'.work.pending[(d, c)])
      else (d, c) in s.work.pending ==> Finishes(s, e, d, c)
  {
    if e.d == d && e.c == c {
      OwnTaskMoves(s, e);
    }
  }

  lemma OwnTaskMoves(s: State, e: Event)
    requires AtTask(e) && Enabled(s, e) && TaskStep(s, e).Running?
    ensures var s' := TaskStep(s, e).s;
      var k := (e.d, e.c);
      k in s.work.pending
      && if k in s'.work.pending then Moves(s, e, e.d, e.c, s.work.pending[k], s'.work.pending[k])
         else Finishes(s, e, e.d, e.c)
  {
  }

  /** Tasks in hand stay as they are, and new ones wait under new numbers. */
  ghost predicate OnlyNewTasks(s: State, s': State, d: nat, c: string)
  {
    s.work.nextDelivery <= s'.work.nextDelivery
    && ((d, c) in s.work.pending ==>
          (d, c) in s'.work.pending && s'.work.pending[(d, c)] == s.work.pending[(d, c)])
    && ((d, c) in s'.work.pending && (d, c) !in s.work.pending ==>
          s.work.nextDelivery <= d < s'.work.nextDelivery && s'.work.pending[(d, c)].phase.Waiting?)
  }

  lemma DispatchMoves(s: State, g: nat, d: nat, c: string)
    requires Inv(s) && g in s.work.gathering
    ensures OnlyNewTasks(s, DispatchStep(s, g), d, c)
  {
    assert PendingOk(s, d, c);
  }

  lemma FindRetainedMoves(s: State, e: Event, d: nat, c: string)
    requires e.FindRetained? && Inv(s) && AllRetained(s, e.topics)
    ensures OnlyNewTasks(s, FindRetainedStep(s, e), d, c)
  {
    assert PendingOk(s, d, c);
    if (d, c) in RetainedTasks(s, e) {
      assert RetainedTasks(s, e)[(d, c)].phase.Waiting?;
    }
  }

  lemma DeliveryStepMoves(s: State, e: Event, d: nat, c: string)
    requires AtDelivery(e) && Enabled(s, e) && Inv(s) && DeliveryStep(s, e).Running?
    ensures OnlyNewTasks(s, DeliveryStep(s, e).s, d, c)
  {
    if e.Dispatch? {
      DispatchMoves(s, e.g, d, c);
    } else if e.FindRetained? {
      FindRetainedMoves(s, e, d, c);
    }
  }

  lemma OwnStepMoves(s: State, e: Event, d: nat, c: string)
    requires e.Connect? || e.Stop? || e.Greet?
    requires Enabled(s, e) && OwnStep(s, e).Running?
    ensures OnlyNewTasks(s, OwnStep(s, e).s, d, c)
  {
  }

  /** How one task fares in one step. */
  ghost predicate TaskMoved(s: State, e: Event, s': State, d: nat, c: string)
  {
    s.work.nextDelivery <= s'.work.nextDelivery
    && if (d, c) in s'.work.pending then
         if (d, c) in s.work.pending then Moves(s, e, d, c, s.work.pending[(d, c)], s'.work.pending[(d, c)])
         else s.work.nextDelivery <= d < s'.work.nextDelivery && s'.work.pending[(d, c)].phase.Waiting?
       else (d, c) in s.work.pending ==> Finishes(s, e, d, c)
  }

  lemma PendingStep(s: State, e: Event, d: nat, c: string)
    requires Inv(s) && Enabled(s, e) && Step(s, e).Running?
    ensures TaskMoved(s, e, Step(s, e).s, d, c)
  {
    if AtTask(e) {
      TaskStepMoves(s, e, d, c);
      TaskStepShape(s, e, c);
    } else if AtClient(Content(e)) {
      ClientStepShape(s, Content(e), c);
    } else if AtDelivery(e) {
      DeliveryStepMoves(s, e, d, c);
    } else if e.Connect? || e.Stop? || e.Greet? {
      OwnStepMoves(s, e, d, c);
    }
  }

  /** A greeting starts with the connection it is for, and waits until it is sent. */
  ghost predicate GreetingMoves(s: State, e: Event, s': State, c: string)
  {
    c in s'.work.greetings ==>
      if e.Connect? && e.c == c && e.generated then
        c in s'.clients && s'.work.greetings[c].handle == s'.clients[c].handle
      else c in s.work.greetings && s'.work.greetings[c] == s.work.greetings[c]
  }

  lemma OwnGreetingStep(s: State, e: Event, c: string)
    requires e.Connect? || e.Stop? || e.Greet?
    requires Enabled(s, e) && Inv(s) && OwnStep(s, e).Running?
    ensures GreetingMoves(s, e, OwnStep(s, e).s, c)
  {
    assert ClientOk(s, c);
  }

  lemma GreetingMovesStep(s: State, e: Event, c: string)
    requires Inv(s) && Enabled(s, e) && Step(s, e).Running?
    ensures GreetingMoves(s, e, Step(s, e).s, c)
  {
    if AtTask(e) {
      TaskStepShape(s, e, c);
    } else if AtClient(Content(e)) {
      ClientStepShape(s, Content(e), c);
    } else if AtDelivery(e) {
      DeliveryStepShape(s, e);
    } else if e.Connect? || e.Stop? || e.Greet? {
      OwnGreetingStep(s, e, c);
    }
  }

  // ---------------------------------------------------------------------------
  // Work that nobody disturbs.

  /** A task's steps, one after the other. */
  function Undisturbed(s: State, d: nat, c: string): State
    requires PhaseOf(s, d, c).Waiting? && HasTask(s, d, c) && c in s.clients && c in s.outbound
  {
    var s2 := CheckConnectedStep(LookUpStep(s, d, c), d, c);
    var s3 := if PhaseOf(s2, d, c).Tested? then PersistStep(s2, d, c) else s2;
    if PhaseOf(s3, d, c).Sending? then EnqueueStep(s3, d, c) else s3
  }

  /** The message handed over, the task done. */
  function HandedOver(s: State, d: nat, c: string): State
    requires HasTask(s, d, c) && c in s.clients && c in s.outbound
  {
    var t := s.work.pending[(d, c)];
    var k := Hand(ConnOf(s, c), TaskMessage(t, s.nextUuid), d, s.depth);
    WithoutTask(WithConn(s, c, k), d, c).(nextUuid := s.nextUuid + if t.qos > 0 then 1 else 0)
  }

  lemma UndisturbedAboveZero(s: State, d: nat, c: string)
    requires PhaseOf(s, d, c).Waiting? && HasTask(s, d, c) && c in s.clients && c in s.outbound
    requires s.work.pending[(d, c)].qos > 0
    ensures Undisturbed(s, d, c) == HandedOver(s, d, c)
  {
    var handle := s.clients[c].handle;
    var s1, s2 := LookUpStep(s, d, c), CheckConnectedStep(LookUpStep(s, d, c), d, c);
    assert PhaseOf(s1, d, c) == Found(handle) && PhaseOf(s2, d, c) == Tested(handle, s.clients[c].connected);
    assert s.clients[c := s.clients[c]] == s.clients;
    assert Undisturbed(s, d, c).work.pending == HandedOver(s, d, c).work.pending;
  }

  lemma UndisturbedAtZero(s: State, d: nat, c: string)
    requires PhaseOf(s, d, c).Waiting? && HasTask(s, d, c) && c in s.clients && c in s.outbound
    requires s.work.pending[(d, c)].qos == 0
    ensures Undisturbed(s, d, c) == HandedOver(s, d, c)
  {
    assert s.outbound[c := s.outbound[c]] == s.outbound && s.clients[c := s.clients[c]] == s.clients;
    assert Undisturbed(s, d, c).work.pending == HandedOver(s, d, c).work.pending;
  }

  /** Together they hand the message over, as the client object's own method does. */
  lemma UndisturbedIsHand(s: State, d: nat, c: string)
    requires PhaseOf(s, d, c).Waiting? && HasTask(s, d, c) && c in s.clients && c in s.outbound
    ensures Undisturbed(s, d, c) == HandedOver(s, d, c)
  {
    if s.work.pending[(d, c)].qos > 0 {
      UndisturbedAboveZero(s, d, c);
    } else {
      UndisturbedAtZero(s, d, c);
    }
  }
}
