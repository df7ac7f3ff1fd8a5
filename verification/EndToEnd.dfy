/** One publication from its walk to its recipients' stores, with anything going on meanwhile: the rows
    a broker run reads are the reads of an interleaved delivery, whose recipients are then stored for. And
    one subscription, from its search for retained messages to its client's store. */
module EndToEnd {
  import opened Levels
  import opened Qos
  import opened Messages
  import opened SubscriptionIndex
  import opened Broker
  import opened BrokerRuns
  import opened BrokerMoves
  import opened BrokerDelivery
  import opened Conservation
  import Interleaved
  import Retained

  // ---------------------------------------------------------------------------
  // Gathering a deliver list in a broker run is an interleaved delivery.

  /** What a step of the broker is to delivery g. */
  function MoveOf(s: State, e: Event, g: nat): Interleaved.Event
  {
    if e == ReadRow(g) then Interleaved.ReadRow else Interleaved.Other(NewOps(s, e))
  }

  function MovesOf(ss: seq<State>, events: seq<Event>, from: nat, to: nat, g: nat): (moves: seq<Interleaved.Event>)
    requires from <= to < |ss| && to <= |events|
    ensures |moves| == to - from
  {
    seq(to - from, k requires 0 <= k < to - from => MoveOf(ss[from + k], events[from + k], g))
  }

  ghost predicate SameGather(s: State, s': State, g: nat)
  {
    s.work.nextGather <= s'.work.nextGather
    && (g in s'.work.gathering ==> g in s.work.gathering && s'.work.gathering[g] == s.work.gathering[g])
  }

  lemma DeliveryStepGathering(s: State, e: Event, g: nat)
    requires AtDelivery(e) && Enabled(s, e) && DeliveryStep(s, e).Running?
    requires g < s.work.nextGather && e != ReadRow(g)
    ensures SameGather(s, DeliveryStep(s, e).s, g)
  {
  }

  lemma OwnStepGathering(s: State, e: Event, g: nat)
    requires e.Connect? || e.Stop? || e.Greet?
    requires Enabled(s, e) && OwnStep(s, e).Running?
    ensures SameGather(s, OwnStep(s, e).s, g)
  {
  }

  lemma GatherStep(s: State, e: Event, g: nat)
    requires Enabled(s, e) && Step(s, e).Running? && g < s.work.nextGather && e != ReadRow(g)
    ensures SameGather(s, Step(s, e).s, g)
  {
    if AtTask(e) {
      TaskStepShape(s, e, e.c);
    } else if AtClient(Content(e)) {
      ClientStepShape(s, Content(e), e.c);
    } else if AtDelivery(e) {
      DeliveryStepGathering(s, e, g);
    } else if e.Connect? || e.Stop? || e.Greet? {
      OwnStepGathering(s, e, g);
    }
  }

  /** While delivery g gathers, the broker's step is its move. */
  ghost predicate Moved(s: State, e: Event, s': State, g: nat)
  {
    s.work.nextGather <= s'.work.nextGather
    && (g in s'.work.gathering ==>
          g in s.work.gathering
          && var was, now := s.work.gathering[g], s'.work.gathering[g];
            now == was.(todo := now.todo, list := now.list)
            && GatherView(s', g) == Interleaved.Step(GatherView(s, g), MoveOf(s, e, g), was.qos))
  }

  lemma ReadMoved(s: State, g: nat)
    requires g in s.work.gathering && s.work.gathering[g].todo != []
    ensures Moved(s, ReadRow(g), ReadRowStep(s, g), g)
  {
    assert s.history + [] == s.history;
  }

  lemma OtherMoved(s: State, e: Event, s': State, g: nat)
    requires e != ReadRow(g) && SameGather(s, s', g) && s'.history == s.history + NewOps(s, e)
    ensures Moved(s, e, s', g)
  {
  }

  lemma MovedAt(ss: seq<State>, events: seq<Event>, k: nat, g: nat)
    requires IsTrace(ss, events) && k + 1 < |ss| && g < ss[k].work.nextGather
    ensures Moved(ss[k], events[k], ss[k + 1], g)
  {
    assert StepAt(ss, events, k);
    MovedStep(ss[k], events[k], ss[k + 1], g);
  }

  lemma MovedStep(s: State, e: Event, s': State, g: nat)
    requires Goes(s, e, s') && g < s.work.nextGather
    ensures Moved(s, e, s', g)
  {
    if e == ReadRow(g) {
      ReadMoved(s, g);
      assert s' == ReadRowStep(s, g);
    } else {
      GatherStep(s, e, g);
      HistoryStep(s, e);
      assert s' == Step(s, e).s;
      OtherMoved(s, e, s', g);
    }
  }

  lemma {:induction false} NumberedBefore(ss: seq<State>, events: seq<Event>, i: nat, k: nat, g: nat)
    requires IsTrace(ss, events) && i <= k < |ss| && g < ss[i].work.nextGather
    ensures g < ss[k].work.nextGather
  {
    if i < k {
      NumberedBefore(ss, events, i, k - 1, g);
      MovedAt(ss, events, k - 1, g);
    }
  }

  /** A delivery that still gathers has gathered all along. */
  lemma {:induction false} GatheredBefore(ss: seq<State>, events: seq<Event>, i: nat, k: nat, n: nat, g: nat)
    requires IsTrace(ss, events) && i <= k <= n < |ss| && g < ss[i].work.nextGather && g in ss[n].work.gathering
    ensures g in ss[k].work.gathering
    decreases n - k
  {
    if k < n {
      GatheredBefore(ss, events, i, k + 1, n, g);
      NumberedBefore(ss, events, i, k, g);
      MovedAt(ss, events, k, g);
    }
  }

  lemma {:induction false} RunsOneMore(v: Interleaved.State, moves: seq<Interleaved.Event>, move: Interleaved.Event,
                                       qos: QosByte)
    ensures Interleaved.Run(v, moves + [move], qos) == Interleaved.Step(Interleaved.Run(v, moves, qos), move, qos)
    decreases |moves|
  {
    if moves == [] {
      assert moves + [move] == [move];
    } else {
      assert (moves + [move])[1..] == moves[1..] + [move];
      RunsOneMore(Interleaved.Step(v, moves[0], qos), moves[1..], move, qos);
    }
  }

  /** As long as delivery g gathers, its view of the run is the interleaved run of its moves. */
  ghost predicate MovesLeadTo(ss: seq<State>, events: seq<Event>, i: nat, k: nat, g: nat)
    requires i <= k < |ss| && k <= |events|
  {
    g in ss[i].work.gathering && g in ss[k].work.gathering
    && var was, now := ss[i].work.gathering[g], ss[k].work.gathering[g];
      now == was.(todo := now.todo, list := now.list)
      && GatherView(ss[k], g) == Interleaved.Run(GatherView(ss[i], g), MovesOf(ss, events, i, k, g), was.qos)
  }

  lemma MovesOneMore(ss: seq<State>, events: seq<Event>, i: nat, k: nat, g: nat)
    requires i <= k && k + 1 < |ss| && k < |events| && MovesLeadTo(ss, events, i, k, g)
    requires Moved(ss[k], events[k], ss[k + 1], g) && g in ss[k + 1].work.gathering
    ensures MovesLeadTo(ss, events, i, k + 1, g)
  {
    MovesLonger(ss, events, i, k, g);
    RunsOneMore(GatherView(ss[i], g), MovesOf(ss, events, i, k, g), MoveOf(ss[k], events[k], g),
                ss[i].work.gathering[g].qos);
  }

  lemma MovesLonger(ss: seq<State>, events: seq<Event>, i: nat, k: nat, g: nat)
    requires i <= k && k + 1 < |ss| && k < |events|
    ensures MovesOf(ss, events, i, k + 1, g) == MovesOf(ss, events, i, k, g) + [MoveOf(ss[k], events[k], g)]
  {
  }

  lemma {:induction false} MovesRun(ss: seq<State>, events: seq<Event>, i: nat, k: nat, g: nat)
    requires IsTrace(ss, events) && i <= k < |ss| && g < ss[i].work.nextGather && g in ss[k].work.gathering
    ensures MovesLeadTo(ss, events, i, k, g)
  {
    if i < k {
      GatheredBefore(ss, events, i, k - 1, k, g);
      MovesRun(ss, events, i, k - 1, g);
      NumberedBefore(ss, events, i, k - 1, g);
      MovedAt(ss, events, k - 1, g);
      MovesOneMore(ss, events, i, k - 1, g);
    }
  }

  // ---------------------------------------------------------------------------
  // From a walk to its deliver list.

  /** Event i walks, and in state n all rows the walk asked for have been read. */
  ghost predicate Gathers(ss: seq<State>, events: seq<Event>, i: nat, n: nat)
  {
    IsTrace(ss, events) && Inv(ss[0]) && i < n < |ss| && events[i].Walk?
    && var g := ss[i].work.nextGather;
      g in ss[n].work.gathering && ss[n].work.gathering[g].todo == []
  }

  lemma WalkStarts(s: State, e: Event, s': State)
    requires e.Walk? && Goes(s, e, s')
    ensures var g := s.work.nextGather;
      g < s'.work.nextGather && g in s'.work.gathering && s'.history == s.history
      && Interleaved.WalkDone(GatherView(s', g), e.topic)
      && s'.work.gathering[g] == Gather(e.topic, e.payload, e.qos, e.order, map[])
  {
  }

  lemma WalkMoves(ss: seq<State>, events: seq<Event>, i: nat, k: nat, n: nat)
    requires Gathers(ss, events, i, n) && i < k <= n
    ensures var g := ss[i].work.nextGather;
      MovesLeadTo(ss, events, i + 1, k, g)
      && Interleaved.WalkDone(GatherView(ss[i + 1], g), events[i].topic)
      && ss[i + 1].history == ss[i].history
      && ss[i + 1].work.gathering[g]
         == Gather(events[i].topic, events[i].payload, events[i].qos, events[i].order, map[])
  {
    var g := ss[i].work.nextGather;
    assert StepAt(ss, events, i);
    WalkStarts(ss[i], events[i], ss[i + 1]);
    GatheredBefore(ss, events, i + 1, k, n, g);
    MovesRun(ss, events, i + 1, k, g);
  }

  /** The client holds the filter at QoS q or better from the walk until the list is complete. */
  ghost predicate HoldsThrough(ss: seq<State>, i: nat, n: nat, c: string, f: string, q: QosByte)
    requires n < |ss|
  {
    forall k {:trigger ss[k]} :: i < k <= n ==> Interleaved.Holds(ss[k].history, c, f, q)
  }

  lemma MovesPrefix(ss: seq<State>, events: seq<Event>, i: nat, k: nat, n: nat, g: nat)
    requires i <= k <= n < |ss| && n <= |events|
    ensures MovesOf(ss, events, i, n, g)[..k - i] == MovesOf(ss, events, i, k, g)
  {
  }

  /** A client that holds one selected filter meanwhile is on the list, at q or better or at the message QoS. */
  lemma KeptSubscriberIsListed(ss: seq<State>, events: seq<Event>, i: nat, n: nat, c: string, f: string, q: QosByte)
    requires Gathers(ss, events, i, n) && f in Chosen(Added(ss[i].history), events[i].topic, false)
    requires HoldsThrough(ss, i, n, c, f, q)
    ensures var list := ss[n].work.gathering[ss[i].work.nextGather].list;
      c in list && list[c] <= events[i].qos && (list[c] == events[i].qos || q <= list[c])
  {
    var g, first := ss[i].work.nextGather, i + 1;
    var moves := MovesOf(ss, events, first, n, g);
    WalkMoves(ss, events, i, n, n);
    forall k {:trigger moves[..k]} | 0 <= k <= |moves|
      ensures Interleaved.Holds(Interleaved.Run(GatherView(ss[first], g), moves[..k], events[i].qos).history, c, f, q)
    {
      WalkMoves(ss, events, i, first + k, n);
      MovesPrefix(ss, events, first, first + k, n, g);
      assert Interleaved.Holds(ss[first + k].history, c, f, q);
    }
    Interleaved.KeptSubscriberIsDelivered(GatherView(ss[first], g), events[i].topic, moves, events[i].qos, c, f, q);
  }

  /** Everybody on the list held a selected filter at some moment meanwhile, and is listed at the QoS held or at
      the message QoS, whichever is lower. */
  lemma ListedHeldWhenRead(ss: seq<State>, events: seq<Event>, i: nat, n: nat, c: string) returns (k: nat, f: string)
    requires Gathers(ss, events, i, n) && c in ss[n].work.gathering[ss[i].work.nextGather].list
    ensures i < k < n && events[k] == ReadRow(ss[i].work.nextGather)
    ensures f in Chosen(Added(ss[i].history), events[i].topic, false) && (c, f) in Subs(ss[k].history)
    ensures var q, held := ss[n].work.gathering[ss[i].work.nextGather].list[c], Subs(ss[k].history)[(c, f)];
      q <= held && q <= events[i].qos && (q == held || q == events[i].qos)
  {
    var g, first := ss[i].work.nextGather, i + 1;
    var moves := MovesOf(ss, events, first, n, g);
    WalkMoves(ss, events, i, n, n);
    var j;
    j, f := Interleaved.DeliveredHeldWhenRead(GatherView(ss[first], g), events[i].topic, moves, events[i].qos, c);
    k := first + j;
    MoveIsRead(ss, events, i, k, n);
  }

  /** Where the move is a read, the event is, and the history is the one read from. */
  lemma MoveIsRead(ss: seq<State>, events: seq<Event>, i: nat, k: nat, n: nat)
    requires Gathers(ss, events, i, n) && i < k < n
    requires MovesOf(ss, events, i + 1, n, ss[i].work.nextGather)[k - (i + 1)].ReadRow?
    ensures var g := ss[i].work.nextGather;
      events[k] == ReadRow(g) && g in ss[i + 1].work.gathering
      && ss[k].history == Interleaved.Run(GatherView(ss[i + 1], g),
                                          MovesOf(ss, events, i + 1, n, g)[..k - (i + 1)], events[i].qos).history
  {
    var g := ss[i].work.nextGather;
    WalkMoves(ss, events, i, k, n);
    MovesPrefix(ss, events, i + 1, k, n, g);
    assert MovesOf(ss, events, i + 1, n, g)[k - (i + 1)] == MoveOf(ss[k], events[k], g);
  }

  // ---------------------------------------------------------------------------
  // From the list to the stores.

  /** Event i walks, and event m hands its complete list out. */
  ghost predicate Publishes(ss: seq<State>, events: seq<Event>, i: nat, m: nat)
  {
    Gathers(ss, events, i, m) && m < |events| && events[m] == Dispatch(ss[i].work.nextGather)
  }

  lemma HandedAsGathered(ss: seq<State>, events: seq<Event>, i: nat, m: nat, c: string)
    requires Publishes(ss, events, i, m) && c in ss[m].work.gathering[ss[i].work.nextGather].list
    ensures var gather := ss[m].work.gathering[ss[i].work.nextGather];
      var t := TaskFor(ss[m], gather, c);
      t.topic == events[i].topic && t.payload == events[i].payload && t.qos == gather.list[c]
  {
    WalkMoves(ss, events, i, m, m);
  }

  /** The promise of a publication: a client that holds one matching filter while the list is gathered, and is
      no longer owed anything, was stored for at one event j, and has exactly one entry for it, at its QoS or
      better or at the message QoS, unless its session was discarded after j. Meanwhile others may subscribe, connect
      and stop, and the client itself may go offline and come back. */
  lemma KeptSubscriberIsStored(ss: seq<State>, events: seq<Event>, i: nat, m: nat, n: nat, c: string, f: string,
                               q: QosByte) returns (t: Task, j: nat)
    requires Publishes(ss, events, i, m) && m < n < |ss|
    requires f in Chosen(Added(ss[i].history), events[i].topic, false) && q > 0 && events[i].qos > 0
    requires HoldsThrough(ss, i, m, c, f, q) && !Owes(ss[n], ss[m].work.nextDelivery, c)
    ensures t.topic == events[i].topic && t.payload == events[i].payload
    ensures t.qos <= events[i].qos && (t.qos == events[i].qos || q <= t.qos)
    ensures m < j < n && events[j] == PersistFor(ss[m].work.nextDelivery, c)
    ensures Paid(ss[n], ss[m].work.nextDelivery, c, t) <==> !DiscardedBetween(ss, events, j, n, c)
  {
    KeptSubscriberIsListed(ss, events, i, m, c, f, q);
    HandedAsGathered(ss, events, i, m, c);
    t := TaskFor(ss[m], ss[m].work.gathering[ss[i].work.nextGather], c);
    j := DeliveryConserved(ss, events, m, n, c);
  }

  /** And nobody else has one: whoever has an entry for it held a selected filter, above QoS 0, when that
      filter's row was read. */
  lemma StoredHeldWhenRead(ss: seq<State>, events: seq<Event>, i: nat, m: nat, n: nat, c: string)
    returns (k: nat, f: string)
    requires Publishes(ss, events, i, m) && m < n < |ss| && !Clear(ss[n], ss[m].work.nextDelivery, c)
    ensures i < k < m && events[k] == ReadRow(ss[i].work.nextGather)
    ensures f in Chosen(Added(ss[i].history), events[i].topic, false) && (c, f) in Subs(ss[k].history)
    ensures Subs(ss[k].history)[(c, f)] > 0 && events[i].qos > 0
  {
    var list := ss[m].work.gathering[ss[i].work.nextGather].list;
    if c !in list || list[c] == 0 {
      OthersSpared(ss, events, m, n, c);
    }
    k, f := ListedHeldWhenRead(ss, events, i, m, c);
  }

  // ---------------------------------------------------------------------------
  // Retained messages.

  /** The retained message a step sets. */
  function SetBy(s: State, e: Event): seq<Retained.SetOp>
  {
    match Content(e)
    case ReceivePublish(_, topic, payload, qos, messageId, dup, true) =>
      [Retained.SetOp(topic, Message(s.nextUuid, topic, payload, qos, dup, true, messageId))]
    case _ => []
  }

  function SetAt(ss: seq<State>, events: seq<Event>, k: nat): seq<Retained.SetOp>
    requires k <= |ss| && k <= |events|
  {
    if k == 0 then [] else SetAt(ss, events, k - 1) + SetBy(ss[k - 1], events[k - 1])
  }

  function RetainedThen(retained: map<string, Message>, ops: seq<Retained.SetOp>): map<string, Message>
  {
    if ops == [] then retained else Retained.Set(retained, ops[0].topic, ops[0].message)
  }

  lemma PublishRetains(s: State, c: string, m: Message)
    requires c in s.clients && c in s.inbound
    ensures ReceivePublishStep(s, c, m).intake.retained
         == if m.retain then Retained.Set(s.intake.retained, m.topic, m) else s.intake.retained
  {
  }

  lemma OthersRetain(s: State, e: Event)
    requires AtClient(e) && Ready(s, e) && !e.ReceivePublish?
    ensures ClientStep(s, e).intake.retained == s.intake.retained
  {
    if e.ReceivePuback? || e.ReceivePubrec? || e.ReceivePubcomp? || e.Send? || e.SendControl? {
      AcksRetain(s, e);
    }
  }

  lemma AcksRetain(s: State, e: Event)
    requires e.ReceivePuback? || e.ReceivePubrec? || e.ReceivePubcomp? || e.Send? || e.SendControl?
    requires Ready(s, e)
    ensures ClientStep(s, e).intake == s.intake
  {
  }

  lemma ClientRetains(s: State, e: Event)
    requires AtClient(e) && Ready(s, e)
    ensures ClientStep(s, e).intake.retained == RetainedThen(s.intake.retained, SetBy(s, e))
  {
    if e.ReceivePublish? {
      PublishRetains(s, e.c, Message(s.nextUuid, e.topic, e.payload, e.qos, e.dup, e.retain, e.messageId));
    } else {
      OthersRetain(s, e);
    }
  }

  lemma OwnRetains(s: State, e: Event)
    requires e.Connect? || e.Stop? || e.Greet?
    requires Enabled(s, e) && OwnStep(s, e).Running?
    ensures OwnStep(s, e).s.intake.retained == s.intake.retained
  {
  }

  lemma RetainedStep(s: State, e: Event)
    requires Enabled(s, e) && Step(s, e).Running?
    ensures Step(s, e).s.intake.retained == RetainedThen(s.intake.retained, SetBy(s, e))
  {
    if AtTask(e) {
      TaskStepShape(s, e, e.c);
    } else if AtClient(Content(e)) {
      ClientRetains(s, Content(e));
    } else if AtDelivery(e) {
      DeliveryStepShape(s, e);
    } else if e.Connect? || e.Stop? || e.Greet? {
      OwnRetains(s, e);
    }
  }

  lemma SetOneMore(ops: seq<Retained.SetOp>, more: seq<Retained.SetOp>)
    requires |more| <= 1
    ensures Retained.RetainedAfter(ops + more) == RetainedThen(Retained.RetainedAfter(ops), more)
  {
    if more == [] {
      assert ops + more == ops;
    } else {
      assert (ops + more)[..|ops + more| - 1] == ops;
    }
  }

  /** In every state of a run, a topic's retained message is the one the PUBLISH packets so far left there. */
  lemma {:induction false} RetainedAt(ss: seq<State>, events: seq<Event>, k: nat)
    requires IsRun(ss, events) && k < |ss|
    ensures ss[k].intake.retained == Retained.RetainedAfter(SetAt(ss, events, k))
  {
    if k > 0 {
      var j := k - 1;
      RetainedAt(ss, events, j);
      assert StepAt(ss, events, j);
      RetainedStep(ss[j], events[j]);
      SetOneMore(SetAt(ss, events, j), SetBy(ss[j], events[j]));
    }
  }

  lemma FoundIndex(ss: seq<State>, events: seq<Event>, i: nat, topic: string) returns (k: nat)
    requires IsTrace(ss, events) && i + 1 < |ss| && events[i].FindRetained?
    requires topic in ss[i].intake.retained && Match(Split(events[i].filter), Split(topic))
    ensures AllRetained(ss[i], events[i].topics) && k < |events[i].topics| && events[i].topics[k] == topic
    ensures var m, t := ss[i].intake.retained[topic], FoundTask(ss[i], events[i].topics, events[i].qos, k);
      t.topic == m.topic && t.payload == m.payload
      && t.qos <= m.qos && t.qos <= events[i].qos && (t.qos == m.qos || t.qos == events[i].qos)
  {
    assert StepAt(ss, events, i);
    FoundMeaning(ss[i], events[i], topic);
    k :| 0 <= k < |events[i].topics| && events[i].topics[k] == topic;
  }

  /** The promise to a new subscription: for each topic that the matcher accepts and whose last PUBLISH to be
      retained was not empty, with both above QoS 0, its client was stored for at one event j, and has exactly
      one entry for it, at the lower QoS, unless its session was discarded after j. */
  lemma RetainedIsStored(ss: seq<State>, events: seq<Event>, i: nat, n: nat, topic: string, m: Message)
    returns (d: nat, t: Task, j: nat)
    requires IsRun(ss, events) && i < n < |ss| && events[i].FindRetained?
    requires topic in Retained.RetainedAfter(SetAt(ss, events, i))
    requires Retained.RetainedAfter(SetAt(ss, events, i))[topic] == m
    requires Match(Split(events[i].filter), Split(topic)) && m.qos > 0 && events[i].qos > 0
    requires forall b {:trigger Owes(ss[n], b, events[i].c)} ::
      ss[i].work.nextDelivery <= b < ss[i].work.nextDelivery + |events[i].topics| ==> !Owes(ss[n], b, events[i].c)
    ensures t.topic == m.topic && t.payload == m.payload
    ensures t.qos <= m.qos && t.qos <= events[i].qos && (t.qos == m.qos || t.qos == events[i].qos)
    ensures i < j < n && events[j] == PersistFor(d, events[i].c)
    ensures Paid(ss[n], d, events[i].c, t) <==> !DiscardedBetween(ss, events, j, n, events[i].c)
  {
    StartOk(ss[0].depth);
    RetainedAt(ss, events, i);
    var k := FoundIndex(ss, events, i, topic);
    d, t := ss[i].work.nextDelivery + k, FoundTask(ss[i], events[i].topics, events[i].qos, k);
    j := FoundConserved(ss, events, i, n, k);
  }
}
