/** What every step of the broker keeps, and exactly which steps end the process. */
module BrokerSafety {
  import opened Qos
  import opened Messages
  import opened SubscriptionIndex
  import opened Persistence
  import opened Session
  import opened Broker
  import Bytes
  import Retained

  // ---------------------------------------------------------------------------
  // One client changes, the others do not.

  ghost predicate SameAt(s: State, s': State, x: string)
  {
    (x in s.clients <==> x in s'.clients) && (x in s.clients ==> s.clients[x] == s'.clients[x])
    && (x in s.inbound <==> x in s'.inbound) && (x in s.inbound ==> s.inbound[x] == s'.inbound[x])
    && (x in s.outbound <==> x in s'.outbound) && (x in s.outbound ==> s.outbound[x] == s'.outbound[x])
    && (x in s'.work.greetings ==> x in s.work.greetings && s'.work.greetings[x] == s.work.greetings[x])
  }

  /** No counter has gone back. */
  ghost predicate Later(s: State, s': State)
  {
    s'.depth == s.depth && s.nextUuid <= s'.nextUuid && s.work.nextDelivery <= s'.work.nextDelivery
    && s.nextHandle <= s'.nextHandle && s.loose <= s'.loose
    && (forall u :: u in s'.loose ==> u < s'.nextUuid)
    && (forall g :: g in s'.work.gathering ==> g < s'.work.nextGather)
  }

  ghost predicate SamePending(s: State, s': State, d: nat, c: string)
  {
    (d, c) in s'.work.pending ==> (d, c) in s.work.pending && s'.work.pending[(d, c)] == s.work.pending[(d, c)]
  }

  /** s' differs from s at client c only. */
  ghost predicate OnlyAt(s: State, s': State, c: string)
  {
    Later(s, s')
    && (forall x {:trigger SameAt(s, s', x)} :: x != c ==> SameAt(s, s', x))
    && (forall d, x {:trigger SamePending(s, s', d, x)} :: x != c ==> SamePending(s, s', d, x))
  }

  ghost predicate NoNewSubscriberBut(before: seq<SubOp>, after: seq<SubOp>, c: string)
  {
    forall x, f {:trigger (x, f) in Subs(after)} :: (x, f) in Subs(after) ==> (x, f) in Subs(before) || x == c
  }

  lemma ConnOkLater(k: Conn, depth: nat, next: Uuid, loose: set<Uuid>, next': Uuid, loose': set<Uuid>)
    requires ConnOk(k, depth, next, loose) && next <= next' && loose <= loose'
    ensures ConnOk(k, depth, next', loose')
  {
    forall i | 0 <= i < |k.client.queue| ensures QueuedOk(k, k.client.queue[i], next', loose') {
      assert QueuedOk(k, k.client.queue[i], next, loose);
    }
  }

  lemma StoreOkLater(store: Store, d: nat, d': nat)
    requires StoreOk(store, d) && d <= d'
    ensures StoreOk(store, d')
  {
    forall u ensures EntryOk(store, u, d') {
      assert EntryOk(store, u, d);
    }
  }

  lemma ClientOkLater(s: State, s': State, x: string)
    requires ClientOk(s, x) && Later(s, s') && SameAt(s, s', x)
    ensures ClientOk(s', x)
  {
    if x in s.clients {
      ConnOkLater(ConnOf(s, x), s.depth, s.nextUuid, s.loose, s'.nextUuid, s'.loose);
      StoreOkLater(s.outbound[x], s.work.nextDelivery, s'.work.nextDelivery);
    }
  }

  lemma PendingOkLater(s: State, s': State, d: nat, x: string)
    requires PendingOk(s, d, x) && Later(s, s') && SameAt(s, s', x) && SamePending(s, s', d, x)
    ensures PendingOk(s', d, x)
  {
  }

  lemma InvOnlyAt(s: State, s': State, c: string)
    requires Inv(s) && OnlyAt(s, s', c) && c in s'.clients && ClientOk(s', c)
    requires forall d {:trigger PendingOk(s', d, c)} :: PendingOk(s', d, c)
    requires GreetingOk(s', c)
    requires NoNewSubscriberBut(s.history, s'.history, c)
    ensures Inv(s')
  {
    forall x ensures ClientOk(s', x) && GreetingOk(s', x) {
      assert ClientOk(s, x) && GreetingOk(s, x);
      if x != c {
        assert SameAt(s, s', x);
        ClientOkLater(s, s', x);
      }
    }
    forall d, x ensures PendingOk(s', d, x) {
      if x != c {
        assert PendingOk(s, d, x) && SameAt(s, s', x) && SamePending(s, s', d, x);
        PendingOkLater(s, s', d, x);
      }
    }
    forall x, f ensures SubscriberOk(s', x, f) {
      assert SubscriberOk(s, x, f);
      assert x != c ==> SameAt(s, s', x);
    }
  }

  /** Work in progress and bookkeeping change, the clients do not. */
  lemma InvSameClients(s: State, s': State)
    requires Inv(s) && Later(s, s')
    requires s'.clients == s.clients && s'.inbound == s.inbound && s'.outbound == s.outbound
    requires s'.history == s.history && s'.work.greetings == s.work.greetings
    requires forall d, c {:trigger PendingOk(s', d, c)} :: SamePending(s, s', d, c) || PendingOk(s', d, c)
    ensures Inv(s')
  {
    forall x ensures ClientOk(s', x) && GreetingOk(s', x) {
      assert ClientOk(s, x) && GreetingOk(s, x);
      ClientOkLater(s, s', x);
    }
    forall d, x ensures PendingOk(s', d, x) {
      if SamePending(s, s', d, x) {
        assert PendingOk(s, d, x);
        PendingOkLater(s, s', d, x);
      }
    }
    forall x, f ensures SubscriberOk(s', x, f) {
      assert SubscriberOk(s, x, f);
    }
  }

  lemma {:induction false} AddOpsSubscribe(history: seq<SubOp>, c: string, filters: seq<string>, qoss: seq<QosByte>)
    requires |filters| == |qoss|
    ensures NoNewSubscriberBut(history, history + AddOps(c, filters, qoss), c)
    decreases |filters|
  {
    if filters == [] {
      assert history + [] == history;
    } else {
      var n := |filters| - 1;
      var before, op := AddOps(c, filters[..n], qoss[..n]), AddOp(c, filters[n], qoss[n]);
      AddOpsSubscribe(history, c, filters[..n], qoss[..n]);
      HistoryGrows(history + before, op);
      assert history + (before + [op]) == history + before + [op];
    }
  }

  lemma DeleteSubscribesNobody(history: seq<SubOp>, op: SubOp, c: string)
    requires !op.AddOp?
    ensures NoNewSubscriberBut(history, history + [op], c)
  {
    HistoryGrows(history, op);
  }

  lemma StoreOkWith(store: Store, u: Uuid, entry: Entry, nextDelivery: nat)
    requires StoreOk(store, nextDelivery)
    requires entry.PublishEntry? ==> entry.m.uuid == u && entry.m.qos > 0 && entry.origin < nextDelivery
    ensures StoreOk(store[u := entry], nextDelivery)
  {
    var store' := store[u := entry];
    forall v ensures EntryOk(store', v, nextDelivery) {
      assert EntryOk(store, v, nextDelivery);
    }
  }

  lemma StoreOkKept(was: Store, now: Store, nextDelivery: nat)
    requires StoreOk(was, nextDelivery) && Keeps(was, now) && now.Keys == was.Keys
    ensures StoreOk(now, nextDelivery)
  {
    forall v ensures EntryOk(now, v, nextDelivery) {
      assert EntryOk(was, v, nextDelivery);
    }
  }

  lemma QueuedOkKept(k: Conn, k': Conn, m: Message, next: Uuid, loose: set<Uuid>, next': Uuid, loose': set<Uuid>)
    requires QueuedOk(k, m, next, loose) && Keeps(k.outbound, k'.outbound) && next <= next' && loose <= loose'
    ensures QueuedOk(k', m, next', loose')
  {
  }

  /** c's store has kept everything and its Client object is the same: its unfinished work is as good as before. */
  lemma WorkKept(s: State, s': State, c: string, d: nat)
    requires Inv(s) && Later(s, s') && c in s.clients && c in s.outbound && c in s'.clients && c in s'.outbound
    requires Keeps(s.outbound[c], s'.outbound[c]) && s'.clients[c].handle == s.clients[c].handle
    requires SamePending(s, s', d, c)
    ensures PendingOk(s', d, c)
  {
    assert PendingOk(s, d, c);
    if (d, c) in s'.work.pending && s'.work.pending[(d, c)].phase.Sending? {
      var phase := s.work.pending[(d, c)].phase;
      if phase.handle == s.clients[c].handle {
        QueuedOkKept(ConnOf(s, c), ConnOf(s', c), phase.m, s.nextUuid, s.loose, s'.nextUuid, s'.loose);
      }
    }
  }

  // ---------------------------------------------------------------------------
  // Every kind of step keeps the invariant.

  /** Some work is done, and none is new. */
  ghost predicate LessWork(was: Work, now: Work)
  {
    now == was.(pending := now.pending, greetings := now.greetings)
    && (forall x :: x in now.pending ==> x in was.pending && now.pending[x] == was.pending[x])
    && (forall x :: x in now.greetings ==> x in was.greetings && now.greetings[x] == was.greetings[x])
  }

  /** A step that replaces one client's connection state, and may use up a UUID. */
  lemma InvWithConn(s: State, c: string, k: Conn, s': State)
    requires Inv(s) && c in s.clients && c in s.outbound
    requires s' == WithConn(s, c, k).(nextUuid := s'.nextUuid, work := s'.work)
    requires s.nextUuid <= s'.nextUuid && LessWork(s.work, s'.work)
    requires ConnOk(k, s.depth, s'.nextUuid, s'.loose) && StoreOk(k.outbound, s.work.nextDelivery)
    requires Keeps(s.outbound[c], k.outbound) && k.client.handle == s.clients[c].handle
    ensures Inv(s')
  {
    assert ClientOk(s, c) && GreetingOk(s, c);
    forall x ensures x != c ==> SameAt(s, s', x) {
    }
    forall d, x ensures SamePending(s, s', d, x) {
    }
    forall d ensures PendingOk(s', d, c) {
      WorkKept(s, s', c, d);
    }
    assert ClientOk(s', c);
    InvOnlyAt(s, s', c);
  }

  /** A step that may change the inbound store, the history, the counter and what is outside the invariant, and
      may offer a control packet. */
  lemma InvWithPriority(s: State, c: string, control: Control, t: State, s': State)
    requires Inv(s) && c in s.clients
    requires t == s.(inbound := t.inbound, history := t.history, nextUuid := t.nextUuid, intake := t.intake)
    requires s.nextUuid <= t.nextUuid && NoNewSubscriberBut(s.history, t.history, c)
    requires t.inbound == s.inbound
      || (exists store :: t.inbound == s.inbound[c := store] && StoredBefore(store, t.nextUuid))
    requires s' == WithPriority(t, c, control) || s' == t
    ensures Inv(s')
  {
    assert ClientOk(s, c) && GreetingOk(s, c);
    var k, k' := ConnOf(s, c), ConnOf(s', c);
    forall x ensures x != c ==> SameAt(s, s', x) {
    }
    forall d, x ensures SamePending(s, s', d, x) {
    }
    forall d ensures PendingOk(s', d, c) {
      WorkKept(s, s', c, d);
    }
    forall i | 0 <= i < |k'.client.queue| ensures QueuedOk(k', k'.client.queue[i], s'.nextUuid, s'.loose) {
      assert QueuedOk(k, k.client.queue[i], s.nextUuid, s.loose);
    }
    assert ClientOk(s', c);
    InvOnlyAt(s, s', c);
  }

  lemma InvSend(s: State, c: string)
    requires Inv(s) && c in s.clients && c in s.outbound && s.clients[c].queue != []
    ensures Inv(WithConn(s, c, SendOne(ConnOf(s, c))))
  {
    assert ClientOk(s, c);
    var k := ConnOf(s, c);
    SendKeeps(k, s.depth, s.nextUuid, s.loose);
    StoreOkKept(k.outbound, SendOne(k).outbound, s.work.nextDelivery);
    InvWithConn(s, c, SendOne(k), WithConn(s, c, SendOne(k)));
  }

  lemma InvSendControl(s: State, c: string)
    requires Inv(s) && c in s.clients && c in s.outbound && s.clients[c].priority != []
    ensures var k := ConnOf(s, c);
      Inv(WithConn(s, c, k.(client := k.client.(priority := k.client.priority[1..]))))
  {
    assert ClientOk(s, c);
    var k := ConnOf(s, c);
    var k' := k.(client := k.client.(priority := k.client.priority[1..]));
    forall i | 0 <= i < |k'.client.queue| ensures QueuedOk(k', k'.client.queue[i], s.nextUuid, s.loose) {
      assert QueuedOk(k, k.client.queue[i], s.nextUuid, s.loose);
    }
    InvWithConn(s, c, k', WithConn(s, c, k'));
  }

  lemma InvPuback(s: State, c: string, id: nat)
    requires Inv(s) && c in s.clients && c in s.outbound
    ensures Inv(WithConn(s, c, OnPuback(ConnOf(s, c), id, s.nextUuid)).(nextUuid := s.nextUuid + 1))
  {
    assert ClientOk(s, c);
    var k' := OnPuback(ConnOf(s, c), id, s.nextUuid);
    PubackKeeps(ConnOf(s, c), id, s.depth, s.nextUuid, s.loose);
    InvWithConn(s, c, k', WithConn(s, c, k').(nextUuid := s.nextUuid + 1));
  }

  lemma InvPubrec(s: State, c: string, id: nat)
    requires Inv(s) && c in s.clients && c in s.outbound
    ensures Inv(WithConn(s, c, OnPubrec(ConnOf(s, c), id, s.nextUuid, s.depth)).(nextUuid := s.nextUuid + 1))
  {
    assert ClientOk(s, c);
    var k' := OnPubrec(ConnOf(s, c), id, s.nextUuid, s.depth);
    PubrecKeeps(ConnOf(s, c), id, s.depth, s.nextUuid, s.loose);
    StoreOkWith(s.outbound[c], s.nextUuid, PubrelEntry(id), s.work.nextDelivery);
    InvWithConn(s, c, k', WithConn(s, c, k').(nextUuid := s.nextUuid + 1));
  }

  lemma InvPubcomp(s: State, c: string, id: nat)
    requires Inv(s) && c in s.clients && c in s.outbound
    ensures Inv(WithConn(s, c, OnPubcomp(ConnOf(s, c), id)))
  {
    assert ClientOk(s, c);
    var k' := OnPubcomp(ConnOf(s, c), id);
    PubcompKeeps(ConnOf(s, c), id, s.depth, s.nextUuid, s.loose);
    InvWithConn(s, c, k', WithConn(s, c, k'));
  }

  lemma InvSubscribe(s: State, c: string, filters: seq<string>, qoss: seq<QosByte>, control: Control)
    requires Inv(s) && c in s.clients && |filters| == |qoss|
    ensures var intake := s.intake.(finders := s.intake.finders + Finders(c, filters, qoss));
      Inv(WithReply(s.(history := s.history + AddOps(c, filters, qoss), intake := intake), c, control))
  {
    var intake := s.intake.(finders := s.intake.finders + Finders(c, filters, qoss));
    var t := WithReply(s.(history := s.history + AddOps(c, filters, qoss), intake := intake), c, control);
    AddOpsSubscribe(s.history, c, filters, qoss);
    InvWithPriority(s, c, control, t, t);
  }

  lemma InvUnsubscribe(s: State, c: string, f: string, control: Control)
    requires Inv(s) && c in s.clients
    ensures Inv(WithReply(s.(history := s.history + [DeleteOp(c, f)]), c, control))
  {
    var t := WithReply(s.(history := s.history + [DeleteOp(c, f)]), c, control);
    DeleteSubscribesNobody(s.history, DeleteOp(c, f), c);
    InvWithPriority(s, c, control, t, t);
  }

  lemma InvReply(s: State, c: string)
    requires Inv(s) && c in s.clients && c in s.intake.replying
    ensures Inv(ReplyStep(s, c))
  {
    var t := s.(intake := s.intake.(replying := s.intake.replying - {c}));
    InvWithPriority(s, c, s.intake.replying[c], t, ReplyStep(s, c));
  }

  lemma InvPubrel(s: State, c: string, id: nat)
    requires Inv(s) && c in s.clients && c in s.inbound
    ensures var t := s.(inbound := s.inbound[c := DeleteFrom(s.inbound[c], s.nextUuid)], nextUuid := s.nextUuid + 1);
      Inv(WithPriority(t, c, Control(Pubcomp, id)))
  {
    assert ClientOk(s, c);
    var store := DeleteFrom(s.inbound[c], s.nextUuid);
    var t := s.(inbound := s.inbound[c := store], nextUuid := s.nextUuid + 1);
    assert StoredBefore(store, t.nextUuid);
    InvWithPriority(s, c, Control(Pubcomp, id), t, WithPriority(t, c, Control(Pubcomp, id)));
  }

  lemma InvReceivePublish(s: State, c: string, m: Message)
    requires Inv(s) && c in s.clients && HasStores(s, c) && m.uuid == s.nextUuid
    ensures Inv(ReceivePublishStep(s, c, m))
  {
    assert ClientOk(s, c);
    var stored := if m.qos > 0 then AddTo(s.inbound[c], m.uuid, PublishEntry(m, 0)) else s.inbound[c];
    var store := if m.qos == 1 then DeleteFrom(stored, s.nextUuid + 1) else stored;
    var retained := if m.retain then Retained.Set(s.intake.retained, m.topic, m) else s.intake.retained;
    var t := s.(inbound := s.inbound[c := store], intake := s.intake.(retained := retained),
                nextUuid := s.nextUuid + 2);
    assert StoredBefore(store, s.nextUuid + 2);
    InvWithPriority(s, c, Control(if m.qos == 1 then Puback else Pubrec, m.messageId), t, ReceivePublishStep(s, c, m));
  }

  lemma UnsentIssued(s: State, c: string)
    requires Inv(s)
    ensures forall u :: u in Unsent(s, c) ==> u < s.nextUuid
  {
    forall d: nat | (d, c) in s.work.pending && s.work.pending[(d, c)].phase.Sending?
      ensures s.work.pending[(d, c)].phase.m.uuid < s.nextUuid
    {
      assert PendingOk(s, d, c);
    }
  }

  lemma InvTakeOver(s: State, c: string)
    requires Inv(s) && c in s.clients
    ensures Inv(TakeOver(s, c))
  {
    var s' := TakeOver(s, c);
    assert ClientOk(s, c) && GreetingOk(s, c);
    UnsentIssued(s, c);
    forall x ensures x != c ==> SameAt(s, s', x) {
    }
    forall d: nat, x ensures SamePending(s, s', d, x) {
    }
    forall d: nat ensures PendingOk(s', d, c) {
      assert PendingOk(s, d, c);
      if IsUnsent(s, d, c) {
        assert s.work.pending[(d, c)].phase.m.uuid in Unsent(s, c);
      }
    }
    assert ClientOk(s', c);
    InvOnlyAt(s, s', c);
  }

  /** A new Client object: nothing on its way to the old one will reach it. */
  lemma InvNewObject(s: State, c: string, s': State)
    requires Inv(s)
    requires s'
      == s.(clients := s'.clients, inbound := s'.inbound, outbound := s'.outbound, nextHandle := s.nextHandle + 1)
    requires forall x {:trigger SameAt(s, s', x)} :: x != c ==> SameAt(s, s', x)
    requires c in s'.clients && s'.clients[c].handle == s.nextHandle && ClientOk(s', c)
    ensures Inv(s')
  {
    assert GreetingOk(s, c);
    forall d, x ensures SamePending(s, s', d, x) {
    }
    forall d ensures PendingOk(s', d, c) {
      assert PendingOk(s, d, c);
    }
    InvOnlyAt(s, s', c);
  }

  lemma InvResume(s: State, c: string, publishes: seq<Uuid>, pubrels: seq<Uuid>)
    requires Inv(s) && c in s.clients && c in s.outbound && CanReplay(s.outbound[c], publishes, pubrels, s.depth)
    ensures Inv(Resume(s, c, publishes, pubrels))
  {
    var s' := Resume(s, c, publishes, pubrels);
    assert ClientOk(s, c);
    forall u | u in IsPublish(s.outbound[c]) ensures s.outbound[c][u].m.uuid == u {
      assert EntryOk(s.outbound[c], u, s.work.nextDelivery);
    }
    ReplayKeeps(ConnOf(s, c), s.nextHandle, publishes, pubrels, s.depth, s.nextUuid, s.loose);
    StoreOkKept(s.outbound[c], s'.outbound[c], s.work.nextDelivery);
    forall x ensures x != c ==> SameAt(s, s', x) {
    }
    InvNewObject(s, c, s');
  }

  lemma InvAdmit(s: State, c: string, clean: bool)
    requires Inv(s)
    ensures Inv(Admit(s, c, clean))
  {
    var s' := Admit(s, c, clean);
    forall x ensures x != c ==> SameAt(s, s', x) {
    }
    assert ClientOk(s', c);
    InvNewObject(s, c, s');
  }

  lemma InvGreeting(s: State, c: string)
    requires Inv(s) && c in s.clients && c !in s.work.greetings
    ensures Inv(GreetingStep(s, c))
  {
    var s' := GreetingStep(s, c);
    assert ClientOk(s, c);
    forall x ensures x != c ==> SameAt(s, s', x) {
    }
    forall d, x ensures SamePending(s, s', d, x) {
    }
    forall d ensures PendingOk(s', d, c) {
      assert PendingOk(s, d, c);
    }
    ClientOkAfterUuid(s, s', c);
    InvOnlyAt(s, s', c);
  }

  lemma ClientOkAfterUuid(s: State, s': State, c: string)
    requires ClientOk(s, c) && s' == s.(nextUuid := s'.nextUuid, loose := s'.loose, work := s'.work)
    requires s'.work == s.work.(greetings := s'.work.greetings)
    requires Later(s, s')
    ensures ClientOk(s', c)
  {
    if c in s.clients {
      ConnOkLater(ConnOf(s, c), s.depth, s.nextUuid, s.loose, s'.nextUuid, s'.loose);
    }
  }

  /** Taking over, resuming, or starting a session. */
  lemma InvConnect(s: State, e: Event)
    requires e.Connect? && Enabled(s, e) && Inv(s)
    ensures Inv(ConnectStep(s, e))
  {
    assert ClientOk(s, e.c);
    if e.c in s.clients && e.clean {
      InvTakeOver(s, e.c);
    } else if Resumes(s, e.c, e.clean) {
      InvResume(s, e.c, e.publishes, e.pubrels);
    } else {
      InvAdmit(s, e.c, e.clean);
      if e.generated { InvGreeting(Admit(s, e.c, e.clean), e.c); }
    }
  }

  lemma InvCleanStop(s: State, c: string)
    requires Inv(s) && c in s.clients && s.clients[c].cleanSession
    ensures Inv(StopStep(s, c))
  {
    var s' := StopStep(s, c);
    HistoryGrows(s.history, DeleteAllOp(c));
    forall x ensures ClientOk(s', x) && GreetingOk(s', x) {
      assert ClientOk(s, x) && GreetingOk(s, x);
      if x != c { ClientOkLater(s, s', x); }
    }
    forall d, x ensures PendingOk(s', d, x) {
      assert PendingOk(s, d, x);
      if x != c { PendingOkLater(s, s', d, x); }
    }
    forall x, f ensures SubscriberOk(s', x, f) {
      assert SubscriberOk(s, x, f);
    }
  }

  lemma InvDurableStop(s: State, c: string)
    requires Inv(s) && c in s.clients && !s.clients[c].cleanSession
    ensures Inv(StopStep(s, c))
  {
    assert ClientOk(s, c);
    var k := ConnOf(s, c);
    var k' := k.(client := k.client.(connected := false, queue := [], priority := []));
    assert s.outbound[c := k.outbound] == s.outbound;
    InvWithConn(s, c, k', StopStep(s, c));
  }

  lemma InvWalk(s: State, e: Event)
    requires Inv(s) && e.Walk?
    ensures Inv(WalkStep(s, e))
  {
    var s' := WalkStep(s, e);
    forall d, c ensures SamePending(s, s', d, c) {
    }
    InvSameClients(s, s');
  }

  lemma InvReadRow(s: State, g: nat)
    requires Inv(s) && g in s.work.gathering
    ensures Inv(ReadRowStep(s, g))
  {
    var s' := ReadRowStep(s, g);
    forall d, c ensures SamePending(s, s', d, c) {
    }
    InvSameClients(s, s');
  }

  lemma InvDispatch(s: State, g: nat)
    requires Inv(s) && g in s.work.gathering
    ensures Inv(DispatchStep(s, g))
  {
    var s' := DispatchStep(s, g);
    forall d, c ensures SamePending(s, s', d, c) || PendingOk(s', d, c) {
    }
    InvSameClients(s, s');
  }

  lemma InvFindRetained(s: State, e: Event)
    requires e.FindRetained? && Inv(s) && AllRetained(s, e.topics)
    ensures Inv(FindRetainedStep(s, e))
  {
    var s' := FindRetainedStep(s, e);
    forall d: nat, c ensures SamePending(s, s', d, c) || PendingOk(s', d, c) {
      if (d, c) in RetainedTasks(s, e) {
        assert RetainedTasks(s, e)[(d, c)].phase == Waiting;
      }
    }
    InvSameClients(s, s');
  }

  lemma InvWithPhase(s: State, d: nat, c: string, phase: Phase)
    requires Inv(s) && (d, c) in s.work.pending && PhaseOk(s, c, s.work.pending[(d, c)].(phase := phase))
    ensures Inv(WithPhase(s, d, c, phase))
  {
    var s' := WithPhase(s, d, c, phase);
    assert PendingOk(s, d, c);
    assert PhaseOk(s', c, s'.work.pending[(d, c)]);
    forall b, x ensures SamePending(s, s', b, x) || PendingOk(s', b, x) {
    }
    InvSameClients(s, s');
  }

  lemma InvWithoutTask(s: State, d: nat, c: string)
    requires Inv(s)
    ensures Inv(WithoutTask(s, d, c))
  {
    var s' := WithoutTask(s, d, c);
    forall b, x ensures SamePending(s, s', b, x) {
    }
    InvSameClients(s, s');
  }

  lemma InvLookUp(s: State, d: nat, c: string)
    requires Inv(s) && (d, c) in s.work.pending
    ensures Inv(LookUpStep(s, d, c))
  {
    assert ClientOk(s, c);
    InvWithPhase(s, d, c, if c in s.clients then Found(s.clients[c].handle) else Missing);
  }

  lemma InvCheckConnected(s: State, d: nat, c: string)
    requires Inv(s) && PhaseOf(s, d, c).Found?
    ensures Inv(CheckConnectedStep(s, d, c))
  {
    assert PendingOk(s, d, c);
    var t, handle := s.work.pending[(d, c)], PhaseOf(s, d, c).handle;
    if t.qos > 0 {
      InvWithPhase(s, d, c, Tested(handle, Live(s, c, handle)));
    } else if Live(s, c, handle) {
      InvWithPhase(s, d, c, Sending(handle, TaskMessage(t, t.copy)));
    } else {
      InvWithoutTask(s, d, c);
    }
  }

  /** The store alone. */
  lemma InvStored(s: State, c: string, m: Message, origin: nat, s': State)
    requires Inv(s) && c in s.clients && c in s.outbound && m.uuid == s.nextUuid && m.qos > 0
      && origin < s.work.nextDelivery
    requires s' == WithConn(s, c, Persist(ConnOf(s, c), m, origin)).(nextUuid := s.nextUuid + 1)
    ensures Inv(s') && QueuedOk(ConnOf(s', c), m, s'.nextUuid, s'.loose)
  {
    assert ClientOk(s, c);
    var k := ConnOf(s, c);
    PersistKeeps(k, m, origin, s.depth, s.nextUuid, s.loose);
    StoreOkWith(k.outbound, m.uuid, PublishEntry(m, origin), s.work.nextDelivery);
    InvWithConn(s, c, Persist(k, m, origin), s');
  }

  lemma InvPersist(s: State, d: nat, c: string)
    requires Inv(s) && PhaseOf(s, d, c).Tested? && c in s.outbound
    ensures c in s.clients && Inv(PersistStep(s, d, c))
  {
    assert ClientOk(s, c) && PendingOk(s, d, c);
    var t, phase := s.work.pending[(d, c)], PhaseOf(s, d, c);
    var m := TaskMessage(t, s.nextUuid);
    var s1 := WithConn(s, c, Persist(ConnOf(s, c), m, d)).(nextUuid := s.nextUuid + 1);
    InvStored(s, c, m, d, s1);
    assert s1.clients == s.clients;
    if phase.connected {
      InvWithPhase(s1, d, c, Sending(phase.handle, m));
    } else {
      InvWithoutTask(s1, d, c);
    }
  }

  lemma InvEnqueue(s: State, c: string, m: Message, s': State)
    requires Inv(s) && c in s.clients && c in s.outbound && QueuedOk(ConnOf(s, c), m, s.nextUuid, s.loose)
    requires s' == WithQueued(s, c, m).(work := s'.work) && LessWork(s.work, s'.work)
    ensures Inv(s')
  {
    assert ClientOk(s, c);
    EnqueueKeeps(ConnOf(s, c), m, s.depth, s.nextUuid, s.loose);
    InvWithConn(s, c, Enqueue(ConnOf(s, c), m, s.depth), s');
  }

  lemma InvAck(s: State, e: Event)
    requires (e.ReceivePuback? || e.ReceivePubrec? || e.ReceivePubcomp?) && Ready(s, e) && Inv(s)
    ensures Inv(ClientStep(s, e))
  {
    match e
    case ReceivePuback(c, id) => InvPuback(s, c, id);
    case ReceivePubrec(c, id) => InvPubrec(s, c, id);
    case ReceivePubcomp(c, id) => InvPubcomp(s, c, id);
  }

  lemma InvClientStep(s: State, e: Event)
    requires AtClient(e) && Ready(s, e) && Inv(s)
    ensures Inv(ClientStep(s, e))
  {
    if e.ReceivePuback? || e.ReceivePubrec? || e.ReceivePubcomp? {
      InvAck(s, e);
      return;
    }
    match e
    case SubscribeTo(c, filters, qoss, id) => InvSubscribe(s, c, filters, qoss, Control(Suback(qoss), id));
    case UnsubscribeFrom(c, filters, id) => InvUnsubscribe(s, c, filters[0], Control(Unsuback, id));
    case ReceivePublish(c, topic, payload, qos, messageId, dup, retain) =>
      InvReceivePublish(s, c, Message(s.nextUuid, topic, payload, qos, dup, retain, messageId));
    case ReceivePubrel(c, id) => InvPubrel(s, c, id);
    case Ping(c) =>
      InvWithPriority(s, c, Control(Pingresp, 0), WithReply(s, c, Control(Pingresp, 0)),
                      WithReply(s, c, Control(Pingresp, 0)));
    case Reply(c) => InvReply(s, c);
    case Send(c) => InvSend(s, c);
    case SendControl(c) => InvSendControl(s, c);
  }

  lemma InvTaskStep(s: State, e: Event)
    requires AtTask(e) && Enabled(s, e) && Inv(s)
    ensures TaskStep(s, e).Running? <==> !MeetsNothing(s, e)
    ensures TaskStep(s, e).Running? ==> Inv(TaskStep(s, e).s)
  {
    match e
    case LookUp(d, c) => InvLookUp(s, d, c);
    case CheckConnected(d, c) => if PhaseOf(s, d, c).Found? { InvCheckConnected(s, d, c); }
    case PersistFor(d, c) => if c in s.outbound { InvPersist(s, d, c); }
    case EnqueueFor(d, c) =>
      assert PendingOk(s, d, c) && ClientOk(s, c);
      if !MeetsNothing(s, e) { InvEnqueue(s, c, PhaseOf(s, d, c).m, EnqueueStep(s, d, c)); }
  }

  lemma TaskEnds(s: State, e: Event)
    requires AtTask(e)
    ensures Ends(s, e) <==> MeetsNothing(s, e)
  {
  }

  lemma InvPacketStep(s: State, e: Event)
    requires AtClient(e) && Enabled(s, e) && Inv(s)
    ensures PacketStep(s, e).Running? <==> !Fatal(e)
    ensures PacketStep(s, e).Running? ==> Inv(PacketStep(s, e).s)
  {
    assert ClientOk(s, e.c);
    if !Fatal(e) { InvClientStep(s, e); }
  }

  lemma PacketEnds(s: State, e: Event)
    requires AtClient(e)
    ensures Ends(s, e) <==> Fatal(e)
  {
  }

  lemma InvGreet(s: State, e: Event)
    requires e.Greet? && Enabled(s, e) && Inv(s) && !MeetsNothing(s, e)
    ensures Inv(GreetStep(s, e.c))
  {
    assert ClientOk(s, e.c) && GreetingOk(s, e.c);
    InvEnqueue(s, e.c, s.work.greetings[e.c].m, GreetStep(s, e.c));
  }

  lemma InvFrameStep(s: State, c: string, bytes: seq<Bytes.Byte>)
    requires Inv(s) && Enabled(s, Frame(c, bytes))
    ensures FrameStep(s, c, bytes).Running? <==> !Fatal(Frame(c, bytes))
    ensures FrameStep(s, c, bytes).Running? ==> Inv(FrameStep(s, c, bytes).s)
  {
    if Read(c, bytes).Handles? {
      InvPacketStep(s, Read(c, bytes).e);
    }
  }

  lemma InvDeliveryStep(s: State, e: Event)
    requires AtDelivery(e) && Enabled(s, e) && Inv(s)
    ensures DeliveryStep(s, e).Running? <==> !Overruns(s, e)
    ensures DeliveryStep(s, e).Running? ==> Inv(DeliveryStep(s, e).s)
  {
    match e
    case Walk(_, _, _, _) => InvWalk(s, e);
    case ReadRow(g) => InvReadRow(s, g);
    case Dispatch(g) => InvDispatch(s, g);
    case FindRetained(_, _, _, _) => InvFindRetained(s, e);
  }

  lemma DeliveryEnds(s: State, e: Event)
    requires AtDelivery(e)
    ensures Ends(s, e) <==> Overruns(s, e)
  {
  }

  lemma InvOwnStep(s: State, e: Event)
    requires !AtTask(e) && !AtClient(e) && !AtDelivery(e) && Enabled(s, e) && Inv(s)
    ensures OwnStep(s, e).Running? <==> !Ends(s, e)
    ensures OwnStep(s, e).Running? ==> Inv(OwnStep(s, e).s)
  {
    match e
    case Connect(_, _, _, _, _) => InvConnect(s, e);
    case FirstFrame(_) =>
    case Frame(c, bytes) => InvFrameStep(s, c, bytes);
    case Greet(_) => if !MeetsNothing(s, e) { InvGreet(s, e); }
    case Stop(c) => if s.clients[c].cleanSession { InvCleanStop(s, c); } else { InvDurableStop(s, c); }
  }

  /** An enabled step of a state that satisfies the invariant ends the process exactly when it reads fatal
      input, walks past the table, or works for a recipient that meets nothing; every other step keeps the
      invariant. */
  lemma InvStep(s: State, e: Event)
    requires Inv(s) && Enabled(s, e)
    ensures Step(s, e).Running? <==> !Ends(s, e)
    ensures Step(s, e).Running? ==> Inv(Step(s, e).s)
  {
    if AtTask(e) {
      InvTaskStep(s, e);
      TaskEnds(s, e);
    } else if AtClient(e) {
      InvPacketStep(s, e);
      PacketEnds(s, e);
    } else if AtDelivery(e) {
      InvDeliveryStep(s, e);
      DeliveryEnds(s, e);
    } else {
      InvOwnStep(s, e);
    }
  }
}
