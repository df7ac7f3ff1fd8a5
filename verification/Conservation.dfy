/** Delivery conservation over runs: deliver lists, retained messages found for a subscription, and what is
    stored already. */
module Conservation {
  import opened Levels
  import opened Messages
  import opened Persistence
  import opened Session
  import opened Broker
  import opened BrokerRuns
  import opened BrokerDelivery

  /** No store holds anything of a number that is still to be given out. */
  lemma NewNumber(s: State, d: nat, c: string)
    requires Inv(s) && s.work.nextDelivery <= d
    ensures Clear(s, d, c) && !HasTask(s, d, c)
  {
    assert ClientOk(s, c) && PendingOk(s, d, c);
    if c in s.outbound {
      forall u ensures !IsFrom(s.outbound[c], u, d) {
        assert EntryOk(s.outbound[c], u, s.work.nextDelivery);
      }
    }
  }

  lemma DispatchOwes(s: State, g: nat, c: string)
    requires Inv(s) && g in s.work.gathering
    ensures var s', d, list := DispatchStep(s, g), s.work.nextDelivery, s.work.gathering[g].list;
      if c in list && list[c] > 0 then Owing(s', d, c, TaskFor(s, s.work.gathering[g], c))
      else Clear(s', d, c) && OwesAtMostZero(s', d, c)
  {
    NewNumber(s, s.work.nextDelivery, c);
  }

  /** A deliver list handed out by event i, in any run and among any other steps: a recipient above QoS 0 that
      is no longer owed the message was stored for at one event j, and holds exactly one entry for it, at the
      listed QoS, unless its session was discarded since; then it holds none. */
  lemma DeliveryConserved(ss: seq<State>, events: seq<Event>, i: nat, n: nat, c: string) returns (j: nat)
    requires IsTrace(ss, events) && Inv(ss[0]) && i < n < |ss| && events[i].Dispatch?
    requires events[i].g in ss[i].work.gathering
    requires var list := ss[i].work.gathering[events[i].g].list; c in list && list[c] > 0
    requires !Owes(ss[n], ss[i].work.nextDelivery, c)
    ensures var d, t := ss[i].work.nextDelivery, TaskFor(ss[i], ss[i].work.gathering[events[i].g], c);
      i < j < n && events[j] == PersistFor(d, c)
      && (Paid(ss[n], d, c, t) <==> !DiscardedBetween(ss, events, j, n, c))
      && (Clear(ss[n], d, c) <==> DiscardedBetween(ss, events, j, n, c))
  {
    var d, t := ss[i].work.nextDelivery, TaskFor(ss[i], ss[i].work.gathering[events[i].g], c);
    InvAt(ss, events, i);
    assert StepAt(ss, events, i);
    DispatchAt(ss[i], events[i], ss[i + 1], c);
    j := OwedOnce(ss, events, i + 1, n, d, c, t);
  }

  lemma DispatchAt(s: State, e: Event, s': State, c: string)
    requires Inv(s) && e.Dispatch? && Goes(s, e, s') && e.g in s.work.gathering
    ensures var d, list := s.work.nextDelivery, s.work.gathering[e.g].list;
      if c in list && list[c] > 0 then Owing(s', d, c, TaskFor(s, s.work.gathering[e.g], c))
      else Clear(s', d, c) && OwesAtMostZero(s', d, c)
    ensures s.work.nextDelivery < s'.work.nextDelivery
  {
    DispatchOwes(s, e.g, c);
  }

  /** Whoever is not on the list, or on it at QoS 0, has nothing of the delivery in its store, ever. */
  lemma OthersSpared(ss: seq<State>, events: seq<Event>, i: nat, n: nat, c: string)
    requires IsTrace(ss, events) && Inv(ss[0]) && i < n < |ss| && events[i].Dispatch?
    requires events[i].g in ss[i].work.gathering
    requires var list := ss[i].work.gathering[events[i].g].list; c in list ==> list[c] == 0
    ensures Clear(ss[n], ss[i].work.nextDelivery, c)
  {
    InvAt(ss, events, i);
    assert StepAt(ss, events, i);
    DispatchAt(ss[i], events[i], ss[i + 1], c);
    assert ss[i].work.nextDelivery > 0;
    SparedAt(ss, events, i + 1, n, ss[i].work.nextDelivery, c);
  }

  lemma FoundOwes(s: State, e: Event, k: nat)
    requires e.FindRetained? && Inv(s) && AllRetained(s, e.topics) && k < |e.topics|
    ensures Owing(FindRetainedStep(s, e), s.work.nextDelivery + k, e.c, FoundTask(s, e.topics, e.qos, k))
  {
    var d := s.work.nextDelivery + k;
    NewNumber(s, d, e.c);
    assert (d, e.c) in RetainedTasks(s, e) && RetainedTasks(s, e)[(d, e.c)] == FoundTask(s, e.topics, e.qos, k);
  }

  lemma FoundAt(s: State, e: Event, s': State, k: nat)
    requires e.FindRetained? && Inv(s) && Goes(s, e, s') && k < |e.topics|
    ensures AllRetained(s, e.topics)
    ensures Owing(s', s.work.nextDelivery + k, e.c, FoundTask(s, e.topics, e.qos, k))
  {
    FoundOwes(s, e, k);
  }

  /** What event i found for a new subscription: its k-th retained message, above QoS 0, is stored for the
      subscriber at one event j, and the subscriber holds exactly one entry for it unless its session was
      discarded since; then it holds none. */
  lemma FoundConserved(ss: seq<State>, events: seq<Event>, i: nat, n: nat, k: nat) returns (j: nat)
    requires IsTrace(ss, events) && Inv(ss[0]) && i < n < |ss| && events[i].FindRetained? && k < |events[i].topics|
    requires AllRetained(ss[i], events[i].topics)
    requires FoundTask(ss[i], events[i].topics, events[i].qos, k).qos > 0
    requires !Owes(ss[n], ss[i].work.nextDelivery + k, events[i].c)
    ensures var c, d := events[i].c, ss[i].work.nextDelivery + k;
      var t := FoundTask(ss[i], events[i].topics, events[i].qos, k);
      i < j < n && events[j] == PersistFor(d, c)
      && (Paid(ss[n], d, c, t) <==> !DiscardedBetween(ss, events, j, n, c))
      && (Clear(ss[n], d, c) <==> DiscardedBetween(ss, events, j, n, c))
  {
    FoundHere(ss, events, i, k);
    j := OwedOnce(ss, events, i + 1, n, ss[i].work.nextDelivery + k, events[i].c,
                  FoundTask(ss[i], events[i].topics, events[i].qos, k));
  }

  lemma FoundHere(ss: seq<State>, events: seq<Event>, i: nat, k: nat)
    requires IsTrace(ss, events) && Inv(ss[0]) && i + 1 < |ss| && events[i].FindRetained? && k < |events[i].topics|
    requires AllRetained(ss[i], events[i].topics)
    ensures Owing(ss[i + 1], ss[i].work.nextDelivery + k, events[i].c,
                  FoundTask(ss[i], events[i].topics, events[i].qos, k))
  {
    InvAt(ss, events, i);
    assert StepAt(ss, events, i);
    FoundAt(ss[i], events[i], ss[i + 1], k);
  }

  /** What a search finds: the topics the matcher accepts, each once, with the topic's last message at the
      lower QoS. */
  lemma FoundMeaning(s: State, e: Event, topic: string)
    requires e.FindRetained? && Enabled(s, e)
    ensures AllRetained(s, e.topics)
    ensures topic in s.intake.retained && Match(Split(e.filter), Split(topic)) <==> topic in e.topics
    ensures forall k, l :: 0 <= k < l < |e.topics| ==> e.topics[k] != e.topics[l]
    ensures forall k :: 0 <= k < |e.topics| ==>
      var m, t := s.intake.retained[e.topics[k]], FoundTask(s, e.topics, e.qos, k);
      t.topic == m.topic && t.payload == m.payload
      && t.qos <= m.qos && t.qos <= e.qos && (t.qos == m.qos || t.qos == e.qos)
  {
  }

  // ---------------------------------------------------------------------------
  // Entries stay.

  lemma KeepsTransitive(a: Store, b: Store, c: Store)
    requires Keeps(a, b) && Keeps(b, c)
    ensures Keeps(a, c)
  {
  }

  lemma KeptAt(s: State, e: Event, s': State, c: string)
    requires Inv(s) && Goes(s, e, s') && c in s.clients && !Discards(s, e, c)
    ensures StoreKept(s, s', c, Working(e, c)) && InboundKept(s, s', c)
  {
    StoreStep(s, e, c);
    InboundStep(s, e, c);
  }

  /** No run short of a discarded session loses a stored entry, outbound or inbound: sends, PUBACKs, PUBRECs,
      PUBCOMPs, durable stops and reconnections all leave it, up to id and DUP flag. */
  lemma {:induction false} NothingStoredIsLost(ss: seq<State>, events: seq<Event>, i: nat, n: nat, c: string)
    requires IsTrace(ss, events) && Inv(ss[0]) && i <= n < |ss| && c in ss[i].clients
    requires forall k :: i <= k < n ==> !Discards(ss[k], events[k], c)
    ensures HasStores(ss[i], c) && c in ss[n].clients && HasStores(ss[n], c)
    ensures Keeps(ss[i].outbound[c], ss[n].outbound[c])
    ensures forall u :: u in ss[i].inbound[c] ==> u in ss[n].inbound[c]
  {
    if i == n {
      InvAt(ss, events, i);
      assert ClientOk(ss[i], c);
      SameStoreKept(ss[i], ss[i], c, 0);
    } else {
      var m := n - 1;
      NothingStoredIsLost(ss, events, i, m, c);
      InvAt(ss, events, m);
      assert StepAt(ss, events, m);
      KeptAt(ss[m], events[m], ss[n], c);
      KeepsTransitive(ss[i].outbound[c], ss[m].outbound[c], ss[n].outbound[c]);
    }
  }

  /** So a durable client that reconnects is sent again every message ever stored for it,
      acknowledged or not, marked as a duplicate. */
  lemma ReplayRepeatsEverything(ss: seq<State>, events: seq<Event>, i: nat, n: nat, c: string, u: Uuid, e: Event)
    requires IsTrace(ss, events) && Inv(ss[0]) && i <= n < |ss| && c in ss[i].clients
    requires forall k :: i <= k < n ==> !Discards(ss[k], events[k], c)
    requires c in ss[i].outbound && u in IsPublish(ss[i].outbound[c])
    requires e.Connect? && e.c == c && !e.clean && Enabled(ss[n], e)
    ensures c in ConnectStep(ss[n], e).clients
    ensures var queue := ConnectStep(ss[n], e).clients[c].queue;
      exists k :: 0 <= k < |queue| && SameMessage(ss[i].outbound[c][u].m, queue[k]) && queue[k].dup
  {
    NothingStoredIsLost(ss, events, i, n, c);
    InvAt(ss, events, n);
    Repeated(ss[n], e, u);
  }

  lemma Repeated(s: State, e: Event, u: Uuid)
    requires Inv(s) && e.Connect? && !e.clean && Enabled(s, e)
    requires e.c in s.clients && HasStores(s, e.c) && u in IsPublish(s.outbound[e.c])
    ensures e.c in ConnectStep(s, e).clients
    ensures var queue := ConnectStep(s, e).clients[e.c].queue;
      exists k :: 0 <= k < |queue| && SameMessage(s.outbound[e.c][u].m, queue[k]) && queue[k].dup
  {
    var queue := ConnectStep(s, e).clients[e.c].queue;
    assert ClientOk(s, e.c) && EntryOk(s.outbound[e.c], u, s.work.nextDelivery);
    var k :| 0 <= k < |e.publishes| && e.publishes[k] == u;
    assert queue[k] == DupEntry(s.outbound[e.c][u]).m;
  }
}
