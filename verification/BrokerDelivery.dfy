/** The work for one recipient, whatever is interleaved with it: above QoS 0 it puts exactly one new entry
    into that recipient's store, where it stays until the session is discarded. No other step stores for it,
    and no step short of discarding a session removes an entry, acknowledgements included. */
module BrokerDelivery {
  import opened Messages
  import opened Persistence
  import opened Session
  import opened Broker
  import opened BrokerRuns
  import opened BrokerMoves

  /** The steps that empty c's stores: a clean connect, and the stop of a clean session. */
  predicate Discards(s: State, e: Event, c: string)
  {
    (e.Connect? && e.c == c && e.clean) || (e.Stop? && e.c == c && c in s.clients && s.clients[c].cleanSession)
  }

  /** New messages in the store come from delivery d. */
  ghost predicate NewFrom(was: Store, now: Store, d: nat)
  {
    forall u :: u in now && u !in was && now[u].PublishEntry? ==> now[u].origin == d
  }

  /** The delivery the step stores a message for at client c, 0 if none. */
  function Working(e: Event, c: string): nat
  {
    if e.PersistFor? && e.c == c then e.d else 0
  }

  /** c is still a client, its outbound store keeps every entry and gains messages from delivery d only. */
  ghost predicate StoreKept(s: State, s': State, c: string, d: nat)
  {
    c in s.clients && HasStores(s, c) && c in s'.clients && HasStores(s', c)
    && Keeps(s.outbound[c], s'.outbound[c]) && NewFrom(s.outbound[c], s'.outbound[c], d)
  }

  lemma SameStoreKept(s: State, s': State, c: string, d: nat)
    requires c in s.clients && HasStores(s, c) && c in s'.clients && HasStores(s', c)
    requires s'.outbound[c] == s.outbound[c]
    ensures StoreKept(s, s', c, d)
  {
  }

  /** Storing for a recipient adds one entry, its own. */
  lemma TaskStored(s: State, d: nat, c: string)
    requires Inv(s) && PhaseOf(s, d, c).Tested? && c in s.outbound
    ensures c in s.clients && HasStores(s, c)
    ensures var t, was, now := s.work.pending[(d, c)], s.outbound[c], PersistStep(s, d, c).outbound[c];
      t.qos > 0 && s.nextUuid !in was && Keeps(was, now) && NewFrom(was, now, d)
      && now == was[s.nextUuid := PublishEntry(TaskMessage(t, s.nextUuid), d)]
  {
    assert PendingOk(s, d, c) && ClientOk(s, c);
    var t := s.work.pending[(d, c)];
    PersistKeeps(ConnOf(s, c), TaskMessage(t, s.nextUuid), d, s.depth, s.nextUuid, s.loose);
  }

  lemma TaskStoreStep(s: State, e: Event, c: string)
    requires AtTask(e) && Enabled(s, e) && Inv(s) && TaskStep(s, e).Running? && c in s.clients
    ensures StoreKept(s, TaskStep(s, e).s, c, Working(e, c))
  {
    assert ClientOk(s, c);
    if e.PersistFor? && e.c == c {
      TaskStored(s, e.d, c);
    } else {
      SameStoreKept(s, TaskStep(s, e).s, c, 0);
    }
  }

  lemma AckStoreStep(s: State, e: Event)
    requires e.ReceivePuback? || e.ReceivePubrec? || e.ReceivePubcomp? || e.Send?
    requires Ready(s, e) && Inv(s)
    ensures StoreKept(s, ClientStep(s, e), e.c, 0)
  {
    var c := e.c;
    assert ClientOk(s, c);
    var k := ConnOf(s, c);
    match e
    case Send(_) => SendKeeps(k, s.depth, s.nextUuid, s.loose);
    case ReceivePuback(_, id) => PubackKeeps(k, id, s.depth, s.nextUuid, s.loose);
    case ReceivePubrec(_, id) => PubrecKeeps(k, id, s.depth, s.nextUuid, s.loose);
    case ReceivePubcomp(_, id) => PubcompKeeps(k, id, s.depth, s.nextUuid, s.loose);
  }

  lemma ClientStoreStep(s: State, e: Event)
    requires AtClient(e) && Ready(s, e) && Inv(s)
    ensures StoreKept(s, ClientStep(s, e), e.c, 0)
  {
    assert ClientOk(s, e.c);
    if e.ReceivePuback? || e.ReceivePubrec? || e.ReceivePubcomp? || e.Send? {
      AckStoreStep(s, e);
    } else {
      SameStoreKept(s, ClientStep(s, e), e.c, 0);
    }
  }

  lemma ClientStepElsewhere(s: State, e: Event, c: string)
    requires AtClient(e) && Ready(s, e) && Inv(s) && c in s.clients && e.c != c
    ensures StoreKept(s, ClientStep(s, e), c, 0)
  {
    assert ClientOk(s, c);
    SameStoreKept(s, ClientStep(s, e), c, 0);
  }

  lemma AnyClientStoreStep(s: State, e: Event, c: string)
    requires AtClient(e) && Ready(s, e) && Inv(s) && c in s.clients
    ensures StoreKept(s, ClientStep(s, e), c, 0)
  {
    if e.c == c {
      ClientStoreStep(s, e);
    } else {
      ClientStepElsewhere(s, e, c);
    }
  }

  lemma ResumedStore(s: State, c: string, publishes: seq<Uuid>, pubrels: seq<Uuid>)
    requires Inv(s) && c in s.clients && c in s.outbound && CanReplay(s.outbound[c], publishes, pubrels, s.depth)
    ensures StoreKept(s, Resume(s, c, publishes, pubrels), c, 0)
  {
    assert ClientOk(s, c);
    forall u | u in IsPublish(s.outbound[c]) ensures s.outbound[c][u].m.uuid == u {
      assert EntryOk(s.outbound[c], u, s.work.nextDelivery);
    }
    ReplayKeeps(ConnOf(s, c), s.nextHandle, publishes, pubrels, s.depth, s.nextUuid, s.loose);
  }

  lemma OwnStoreStep(s: State, e: Event, c: string)
    requires e.Connect? || e.Stop? || e.Greet?
    requires Enabled(s, e) && Inv(s) && OwnStep(s, e).Running? && c in s.clients && !Discards(s, e, c)
    ensures StoreKept(s, OwnStep(s, e).s, c, 0)
  {
    assert ClientOk(s, c);
    if e.Connect? && e.c == c {
      ResumedStoreStep(s, e);
    } else {
      OwnStoreSame(s, e, c);
      SameStoreKept(s, OwnStep(s, e).s, c, 0);
    }
  }

  lemma ResumedStoreStep(s: State, e: Event)
    requires e.Connect? && Enabled(s, e) && Inv(s) && e.c in s.clients && HasStores(s, e.c) && !e.clean
    ensures StoreKept(s, OwnStep(s, e).s, e.c, 0)
  {
    ResumedStore(s, e.c, e.publishes, e.pubrels);
    assert OwnStep(s, e).s == Resume(s, e.c, e.publishes, e.pubrels);
  }

  lemma OwnStoreSame(s: State, e: Event, c: string)
    requires e.Greet? || (e.Connect? && e.c != c) || e.Stop?
    requires Enabled(s, e) && OwnStep(s, e).Running? && c in s.clients && HasStores(s, c) && !Discards(s, e, c)
    ensures var s' := OwnStep(s, e).s; c in s'.clients && HasStores(s', c) && s'.outbound[c] == s.outbound[c]
  {
  }

  lemma DeliveryStoreStep(s: State, e: Event, c: string)
    requires AtDelivery(e) && Enabled(s, e) && Inv(s) && DeliveryStep(s, e).Running? && c in s.clients
    ensures StoreKept(s, DeliveryStep(s, e).s, c, 0)
  {
    assert ClientOk(s, c);
    DeliveryStepShape(s, e);
    SameStoreKept(s, DeliveryStep(s, e).s, c, 0);
  }

  /** Whatever the step, c's outbound store keeps every entry, and gains messages only from the
      delivery the step works for. */
  lemma StoreStep(s: State, e: Event, c: string)
    requires Inv(s) && Enabled(s, e) && Step(s, e).Running? && c in s.clients && !Discards(s, e, c)
    ensures StoreKept(s, Step(s, e).s, c, Working(e, c))
  {
    if AtTask(e) {
      TaskStoreStep(s, e, c);
    } else if AtClient(Content(e)) {
      AnyClientStoreStep(s, Content(e), c);
    } else if AtDelivery(e) {
      DeliveryStoreStep(s, e, c);
    } else if e.Connect? || e.Stop? || e.Greet? {
      OwnStoreStep(s, e, c);
    } else {
      assert ClientOk(s, c);
      SameStoreKept(s, s, c, 0);
    }
  }

  ghost predicate InboundKept(s: State, s': State, c: string)
  {
    c in s.inbound && c in s'.inbound
    && forall u :: u in s.inbound[c] ==> u in s'.inbound[c] && s'.inbound[c][u] == s.inbound[c][u]
  }

  lemma PubrelInboundStep(s: State, e: Event, c: string)
    requires (e.ReceivePubrel? || e.ReceivePublish?) && Ready(s, e)
    requires c in s.inbound && StoredBefore(s.inbound[c], s.nextUuid)
    ensures InboundKept(s, ClientStep(s, e), c)
  {
  }

  lemma ClientInboundStep(s: State, e: Event, c: string)
    requires AtClient(e) && Ready(s, e) && c in s.inbound && StoredBefore(s.inbound[c], s.nextUuid)
    ensures InboundKept(s, ClientStep(s, e), c)
  {
    if e.ReceivePubrel? || e.ReceivePublish? {
      PubrelInboundStep(s, e, c);
    } else {
      OtherInboundStep(s, e);
    }
  }

  lemma OtherInboundStep(s: State, e: Event)
    requires AtClient(e) && Ready(s, e) && !e.ReceivePubrel? && !e.ReceivePublish?
    ensures ClientStep(s, e).inbound == s.inbound
  {
  }

  lemma OwnInboundStep(s: State, e: Event, c: string)
    requires e.Connect? || e.Stop? || e.Greet?
    requires Enabled(s, e) && Inv(s) && OwnStep(s, e).Running? && c in s.clients && !Discards(s, e, c)
    ensures InboundKept(s, OwnStep(s, e).s, c)
  {
    assert ClientOk(s, c);
  }

  lemma TaskInboundStep(s: State, e: Event)
    requires AtTask(e) && Enabled(s, e) && TaskStep(s, e).Running?
    ensures TaskStep(s, e).s.inbound == s.inbound
  {
  }

  /** Nor does any step take anything out of c's inbound store: the acknowledgements the broker sends
      carry UUIDs of their own, so the deletions made for them find nothing. */
  lemma InboundStep(s: State, e: Event, c: string)
    requires Inv(s) && Enabled(s, e) && Step(s, e).Running? && c in s.clients && !Discards(s, e, c)
    ensures InboundKept(s, Step(s, e).s, c)
  {
    assert ClientOk(s, c);
    if AtTask(e) {
      TaskInboundStep(s, e);
    } else if AtClient(Content(e)) {
      ClientInboundStep(s, Content(e), c);
    } else if AtDelivery(e) {
      DeliveryStepShape(s, e);
    } else if e.Connect? || e.Stop? || e.Greet? {
      OwnInboundStep(s, e, c);
    }
  }

  // ---------------------------------------------------------------------------
  // What one delivery has done for one client.

  ghost predicate IsFrom(store: Store, u: Uuid, d: nat)
  {
    u in store && store[u].PublishEntry? && store[u].origin == d
  }

  ghost predicate NoneFrom(store: Store, d: nat)
  {
    forall u {:trigger IsFrom(store, u, d)} :: !IsFrom(store, u, d)
  }

  /** Entry u is delivery d's only one, and carries the task's topic and payload at the task's QoS, in a packet of
      its own that is not marked as retained. */
  ghost predicate OnlyFrom(store: Store, u: Uuid, d: nat, t: Task)
  {
    IsFrom(store, u, d)
    && (var m := store[u].m;
        m.uuid == u && m.topic == t.topic && m.payload == t.payload && m.qos == t.qos && !m.retain)
    && forall v {:trigger IsFrom(store, v, d)} :: IsFrom(store, v, d) ==> v == u
  }

  ghost predicate OneFrom(store: Store, d: nat, t: Task)
  {
    exists u :: OnlyFrom(store, u, d, t)
  }

  /** The task has not got as far as the store. */
  predicate Owes(s: State, d: nat, c: string)
  {
    (d, c) in s.work.pending && !s.work.pending[(d, c)].phase.Sending?
  }

  /** Delivery d has nothing in c's store, if c has one. */
  ghost predicate Clear(s: State, d: nat, c: string)
  {
    c in s.outbound ==> NoneFrom(s.outbound[c], d)
  }

  /** Delivery d still owes client c the message. */
  ghost predicate Owing(s: State, d: nat, c: string, t: Task)
  {
    Owes(s, d, c) && s.work.pending[(d, c)] == t.(phase := PhaseOf(s, d, c)) && Clear(s, d, c)
  }

  /** It has put exactly one entry for it in c's store. */
  ghost predicate Paid(s: State, d: nat, c: string, t: Task)
  {
    c in s.outbound && OneFrom(s.outbound[c], d, t)
  }

  lemma NoneFromKept(was: Store, now: Store, d: nat, other: nat)
    requires NoneFrom(was, d) && Keeps(was, now) && NewFrom(was, now, other) && other != d
    ensures NoneFrom(now, d)
  {
    forall u ensures !IsFrom(now, u, d) {
      assert !IsFrom(was, u, d);
    }
  }

  lemma OneFromKept(was: Store, now: Store, d: nat, other: nat, t: Task)
    requires OneFrom(was, d, t) && Keeps(was, now) && NewFrom(was, now, other) && other != d
    ensures OneFrom(now, d, t)
  {
    var u :| OnlyFrom(was, u, d, t);
    forall v | IsFrom(now, v, d) ensures v == u {
      assert IsFrom(was, v, d);
    }
    assert OnlyFrom(now, u, d, t);
  }

  /** A client that was not there before, or has discarded its session, has an empty store or none. */
  lemma EmptyAfter(s: State, e: Event, c: string)
    requires Inv(s) && Enabled(s, e) && Step(s, e).Running? && (c !in s.clients || Discards(s, e, c))
    ensures c in Step(s, e).s.outbound ==> Step(s, e).s.outbound[c] == map[]
  {
    assert ClientOk(s, c);
    if AtTask(e) {
      TaskElsewhere(s, e, c);
    } else if AtClient(Content(e)) {
      ClientElsewhere(s, Content(e), c);
    } else if AtDelivery(e) {
      DeliveryStepShape(s, e);
    } else if e.Connect? || e.Stop? || e.Greet? {
      OwnEmptyAfter(s, e, c);
    }
  }

  lemma TaskElsewhere(s: State, e: Event, c: string)
    requires AtTask(e) && Enabled(s, e) && TaskStep(s, e).Running? && c !in s.outbound
    ensures c !in TaskStep(s, e).s.outbound
  {
  }

  lemma ClientElsewhere(s: State, e: Event, c: string)
    requires AtClient(e) && Ready(s, e) && c !in s.outbound
    ensures c !in ClientStep(s, e).outbound
  {
    if e.ReceivePuback? || e.ReceivePubrec? || e.ReceivePubcomp? || e.Send? || e.SendControl? {
      AckElsewhere(s, e, c);
    }
  }

  lemma AckElsewhere(s: State, e: Event, c: string)
    requires e.ReceivePuback? || e.ReceivePubrec? || e.ReceivePubcomp? || e.Send? || e.SendControl?
    requires Ready(s, e) && c !in s.outbound
    ensures c !in ClientStep(s, e).outbound
  {
  }

  lemma OwnEmptyAfter(s: State, e: Event, c: string)
    requires e.Connect? || e.Stop? || e.Greet?
    requires Inv(s) && Enabled(s, e) && OwnStep(s, e).Running? && (c !in s.clients || Discards(s, e, c))
    ensures c in OwnStep(s, e).s.outbound ==> OwnStep(s, e).s.outbound[c] == map[]
  {
    assert ClientOk(s, c);
  }

  /** Only its own storing step puts anything of delivery d into c's store. */
  lemma ClearStep(s: State, e: Event, d: nat, c: string)
    requires Inv(s) && Enabled(s, e) && Step(s, e).Running? && d > 0 && Clear(s, d, c) && e != PersistFor(d, c)
    ensures Clear(Step(s, e).s, d, c)
  {
    if c !in s.clients || Discards(s, e, c) {
      EmptyAfter(s, e, c);
    } else {
      StoreStep(s, e, c);
      NoneFromKept(s.outbound[c], Step(s, e).s.outbound[c], d, Working(e, c));
    }
  }

  /** A task above QoS 0 stays owed until its storing step. */
  lemma OwesStep(s: State, e: Event, d: nat, c: string)
    requires Inv(s) && Enabled(s, e) && Step(s, e).Running? && Owes(s, d, c) && s.work.pending[(d, c)].qos > 0
    requires e != PersistFor(d, c)
    ensures Owes(Step(s, e).s, d, c)
    ensures var s' := Step(s, e).s;
      s'.work.pending[(d, c)] == s.work.pending[(d, c)].(phase := PhaseOf(s', d, c))
  {
    PendingStep(s, e, d, c);
  }

  /** Nothing is owed again. */
  lemma OwesNoMore(s: State, e: Event, d: nat, c: string)
    requires Inv(s) && Enabled(s, e) && Step(s, e).Running? && d < s.work.nextDelivery && !Owes(s, d, c)
    ensures !Owes(Step(s, e).s, d, c)
  {
    PendingStep(s, e, d, c);
  }

  lemma OwingStep(s: State, e: Event, d: nat, c: string, t: Task)
    requires Inv(s) && Enabled(s, e) && Step(s, e).Running? && t.qos > 0
    requires Owing(s, d, c, t) && e != PersistFor(d, c)
    ensures Owing(Step(s, e).s, d, c, t)
  {
    assert PendingOk(s, d, c);
    ClearStep(s, e, d, c);
    OwesStep(s, e, d, c);
  }

  lemma PaidByStep(s: State, d: nat, c: string, t: Task)
    requires Inv(s) && PhaseOf(s, d, c).Tested? && c in s.outbound && Owing(s, d, c, t)
    ensures Paid(PersistStep(s, d, c), d, c, t) && !Owes(PersistStep(s, d, c), d, c)
  {
    TaskStored(s, d, c);
    var was, now, u := s.outbound[c], PersistStep(s, d, c).outbound[c], s.nextUuid;
    forall v | IsFrom(now, v, d) ensures v == u {
      assert !IsFrom(was, v, d);
    }
    assert OnlyFrom(now, u, d, t);
  }

  lemma PaidStep(s: State, e: Event, d: nat, c: string, t: Task)
    requires Inv(s) && Enabled(s, e) && Step(s, e).Running? && 0 < d && !Owes(s, d, c) && Paid(s, d, c, t)
    requires !Discards(s, e, c)
    ensures Paid(Step(s, e).s, d, c, t)
  {
    assert ClientOk(s, c);
    StoreStep(s, e, c);
    OneFromKept(s.outbound[c], Step(s, e).s.outbound[c], d, Working(e, c), t);
  }

  // ---------------------------------------------------------------------------
  // What becomes of a task in a run.

  ghost predicate DiscardedBetween(ss: seq<State>, events: seq<Event>, j: nat, n: nat, c: string)
    requires n <= |ss| && n <= |events|
  {
    exists k :: j < k < n && Discards(ss[k], events[k], c)
  }

  lemma OwedAt(s: State, e: Event, s': State, d: nat, c: string, t: Task)
    requires Inv(s) && Goes(s, e, s') && t.qos > 0 && Owing(s, d, c, t)
    ensures if e == PersistFor(d, c) then Paid(s', d, c, t) && !Owes(s', d, c) else Owing(s', d, c, t)
  {
    if e == PersistFor(d, c) {
      PaidByStep(s, d, c, t);
    } else {
      OwingStep(s, e, d, c, t);
    }
  }

  lemma PaidAt(s: State, e: Event, s': State, d: nat, c: string, t: Task)
    requires Inv(s) && Goes(s, e, s') && 0 < d < s.work.nextDelivery && !Owes(s, d, c) && Paid(s, d, c, t)
    ensures !Owes(s', d, c) && if Discards(s, e, c) then Clear(s', d, c) else Paid(s', d, c, t)
  {
    OwesNoMore(s, e, d, c);
    if Discards(s, e, c) {
      EmptyAfter(s, e, c);
    } else {
      PaidStep(s, e, d, c, t);
    }
  }

  lemma ClearAt(s: State, e: Event, s': State, d: nat, c: string)
    requires Inv(s) && Goes(s, e, s') && 0 < d < s.work.nextDelivery && !Owes(s, d, c) && Clear(s, d, c)
    ensures !Owes(s', d, c) && Clear(s', d, c)
  {
    OwesNoMore(s, e, d, c);
    ClearStep(s, e, d, c);
  }

  lemma {:induction false} NumberKept(ss: seq<State>, events: seq<Event>, i: nat, n: nat)
    requires IsTrace(ss, events) && Inv(ss[0]) && i <= n < |ss|
    ensures ss[i].work.nextDelivery <= ss[n].work.nextDelivery
  {
    if i < n {
      var m := n - 1;
      NumberKept(ss, events, i, m);
      InvAt(ss, events, m);
      assert StepAt(ss, events, m);
      PendingStep(ss[m], events[m], 0, "");
    }
  }

  /** Stored for by event j, and kept until a discard. */
  ghost predicate Settled(ss: seq<State>, events: seq<Event>, j: nat, n: nat, d: nat, c: string, t: Task)
    requires n < |ss| && n <= |events|
  {
    !Owes(ss[n], d, c)
    && if DiscardedBetween(ss, events, j, n, c) then Clear(ss[n], d, c) else Paid(ss[n], d, c, t)
  }

  lemma SettledStep(ss: seq<State>, events: seq<Event>, j: nat, m: nat, d: nat, c: string, t: Task)
    requires IsTrace(ss, events) && m + 1 < |ss| && j < m && Inv(ss[m])
    requires 0 < d < ss[m].work.nextDelivery && Settled(ss, events, j, m, d, c, t)
    ensures Settled(ss, events, j, m + 1, d, c, t)
  {
    assert StepAt(ss, events, m);
    if DiscardedBetween(ss, events, j, m, c) {
      ClearAt(ss[m], events[m], ss[m + 1], d, c);
    } else {
      PaidAt(ss[m], events[m], ss[m + 1], d, c, t);
    }
  }

  lemma OwingNumber(ss: seq<State>, events: seq<Event>, i: nat, n: nat, d: nat, c: string)
    requires IsTrace(ss, events) && Inv(ss[0]) && i <= n < |ss| && Owes(ss[i], d, c)
    ensures Inv(ss[n]) && 0 < d < ss[n].work.nextDelivery
  {
    InvAt(ss, events, i);
    InvAt(ss, events, n);
    NumberKept(ss, events, i, n);
    assert PendingOk(ss[i], d, c);
  }

  /** The work for a recipient above QoS 0, in any run: it is owed until its storing step j; from then on the
      recipient's store holds exactly one entry for it until the session is discarded, and none after that. */
  lemma {:induction false} TaskFate(ss: seq<State>, events: seq<Event>, i: nat, n: nat, d: nat, c: string, t: Task)
    returns (j: nat)
    requires IsTrace(ss, events) && Inv(ss[0]) && i <= n < |ss| && t.qos > 0 && Owing(ss[i], d, c, t)
    ensures Owes(ss[n], d, c) ==> Owing(ss[n], d, c, t)
    ensures !Owes(ss[n], d, c) ==>
      i <= j < n && events[j] == PersistFor(d, c) && Settled(ss, events, j, n, d, c, t)
  {
    if i == n {
      j := 0;
    } else {
      var m := n - 1;
      j := TaskFate(ss, events, i, m, d, c, t);
      OwingNumber(ss, events, i, m, d, c);
      if Owes(ss[m], d, c) {
        assert StepAt(ss, events, m);
        OwedAt(ss[m], events[m], ss[m + 1], d, c, t);
        if events[m] == PersistFor(d, c) { j := m; }
      } else {
        SettledStep(ss, events, j, m, d, c, t);
      }
    }
  }

  /** So, once nothing is owed, the entry is there exactly if the session was not discarded since. */
  lemma OwedOnce(ss: seq<State>, events: seq<Event>, i: nat, n: nat, d: nat, c: string, t: Task) returns (j: nat)
    requires IsTrace(ss, events) && Inv(ss[0]) && i <= n < |ss| && t.qos > 0 && Owing(ss[i], d, c, t)
    requires !Owes(ss[n], d, c)
    ensures i <= j < n && events[j] == PersistFor(d, c)
    ensures Paid(ss[n], d, c, t) <==> !DiscardedBetween(ss, events, j, n, c)
    ensures Clear(ss[n], d, c) <==> DiscardedBetween(ss, events, j, n, c)
  {
    j := TaskFate(ss, events, i, n, d, c, t);
    PaidIsNotClear(ss[n], d, c, t);
  }

  lemma PaidIsNotClear(s: State, d: nat, c: string, t: Task)
    ensures !(Paid(s, d, c, t) && Clear(s, d, c))
  {
    if Paid(s, d, c, t) {
      var u :| OnlyFrom(s.outbound[c], u, d, t);
      assert IsFrom(s.outbound[c], u, d);
    }
  }

  /** Delivery d owes client c nothing above QoS 0. */
  predicate OwesAtMostZero(s: State, d: nat, c: string)
  {
    (d, c) in s.work.pending ==> s.work.pending[(d, c)].qos == 0
  }

  lemma SparedStep(s: State, e: Event, d: nat, c: string)
    requires Inv(s) && Enabled(s, e) && Step(s, e).Running? && 0 < d < s.work.nextDelivery
    requires Clear(s, d, c) && OwesAtMostZero(s, d, c)
    ensures Clear(Step(s, e).s, d, c) && OwesAtMostZero(Step(s, e).s, d, c)
  {
    PendingStep(s, e, d, c);
    assert PendingOk(s, d, c);
    ClearStep(s, e, d, c);
  }

  /** Work at QoS 0, or none, stores nothing in any run. */
  lemma {:induction false} SparedAt(ss: seq<State>, events: seq<Event>, i: nat, n: nat, d: nat, c: string)
    requires IsTrace(ss, events) && Inv(ss[0]) && i <= n < |ss| && 0 < d < ss[i].work.nextDelivery
    requires Clear(ss[i], d, c) && OwesAtMostZero(ss[i], d, c)
    ensures Clear(ss[n], d, c) && OwesAtMostZero(ss[n], d, c)
  {
    if i < n {
      var m := n - 1;
      SparedAt(ss, events, i, m, d, c);
      InvAt(ss, events, m);
      NumberKept(ss, events, i, m);
      assert StepAt(ss, events, m);
      SparedStep(ss[m], events[m], d, c);
    }
  }
}
