/** Store before queue: which queued messages are in their client's store, and which are not. */
module BrokerStores {
  import opened Messages
  import opened Session
  import opened Broker
  import opened BrokerRuns
  import opened BrokerMoves

  /** The step lets message u be queued without being stored: it is a generated client id, or was on its
      way when a clean connection emptied the store. */
  predicate Loosens(s: State, e: Event, u: Uuid)
  {
    e.Connect? && ((e.generated && u == s.nextUuid) || (e.clean && e.c in s.clients && u in Unsent(s, e.c)))
  }

  lemma OwnLooseStep(s: State, e: Event, u: Uuid)
    requires e.Connect? || e.Stop? || e.Greet?
    requires Enabled(s, e) && Inv(s) && OwnStep(s, e).Running?
    ensures u in OwnStep(s, e).s.loose <==> u in s.loose || Loosens(s, e, u)
  {
    assert ClientOk(s, e.c);
  }

  lemma LooseStep(s: State, e: Event, u: Uuid)
    requires Enabled(s, e) && Inv(s) && Step(s, e).Running?
    ensures u in Step(s, e).s.loose <==> u in s.loose || Loosens(s, e, u)
  {
    if AtTask(e) {
      TaskStepShape(s, e, e.c);
    } else if AtClient(Content(e)) {
      ClientStepShape(s, Content(e), e.c);
    } else if AtDelivery(e) {
      DeliveryStepShape(s, e);
    } else if e.Connect? || e.Stop? || e.Greet? {
      OwnLooseStep(s, e, u);
    }
  }

  ghost predicate LoosenedBefore(ss: seq<State>, events: seq<Event>, k: nat, u: Uuid)
    requires k <= |ss| <= |events| + 1 && k <= |events|
  {
    exists j :: 0 <= j < k && Loosens(ss[j], events[j], u)
  }

  lemma {:induction false} LooseAt(ss: seq<State>, events: seq<Event>, k: nat, u: Uuid)
    requires IsTrace(ss, events) && Inv(ss[0]) && k < |ss|
    ensures u in ss[k].loose <==> u in ss[0].loose || LoosenedBefore(ss, events, k, u)
  {
    if k > 0 {
      var j := k - 1;
      LooseAt(ss, events, j, u);
      InvAt(ss, events, j);
      assert StepAt(ss, events, j);
      LooseStep(ss[j], events[j], u);
    }
  }

  // ---------------------------------------------------------------------------
  // A loosened message is in no store.

  /** The store holds only what it held before, and what is new since next. */
  ghost predicate GainsNew(s: State, s': State, x: string)
  {
    x in s'.outbound ==>
      forall u :: u in s'.outbound[x] ==> (x in s.outbound && u in s.outbound[x]) || u >= s.nextUuid
  }

  lemma AckGains(s: State, e: Event, x: string)
    requires e.ReceivePuback? || e.ReceivePubrec? || e.ReceivePubcomp? || e.Send? || e.SendControl?
    requires Ready(s, e)
    ensures GainsNew(s, ClientStep(s, e), x)
  {
  }

  lemma ClientGains(s: State, e: Event, x: string)
    requires AtClient(e) && Ready(s, e)
    ensures GainsNew(s, ClientStep(s, e), x)
  {
    if e.ReceivePuback? || e.ReceivePubrec? || e.ReceivePubcomp? || e.Send? || e.SendControl? {
      AckGains(s, e, x);
    }
  }

  lemma TaskGains(s: State, e: Event, x: string)
    requires AtTask(e) && Enabled(s, e) && Inv(s) && TaskStep(s, e).Running?
    ensures GainsNew(s, TaskStep(s, e).s, x)
  {
    assert PendingOk(s, e.d, e.c);
  }

  lemma OwnGains(s: State, e: Event, x: string, u: Uuid)
    requires e.Connect? || e.Stop? || e.Greet?
    requires Enabled(s, e) && Inv(s) && OwnStep(s, e).Running?
    requires x in OwnStep(s, e).s.outbound && u in OwnStep(s, e).s.outbound[x]
    ensures x in s.outbound && u in s.outbound[x]
    ensures !(e.Connect? && e.c == x && (e.clean || e.generated))
  {
    assert ClientOk(s, e.c);
  }

  lemma StoreGains(s: State, e: Event, x: string)
    requires Enabled(s, e) && Inv(s) && Step(s, e).Running?
    ensures GainsNew(s, Step(s, e).s, x)
  {
    var s' := Step(s, e).s;
    if AtTask(e) {
      TaskGains(s, e, x);
    } else if AtClient(Content(e)) {
      ClientGains(s, Content(e), x);
    } else if AtDelivery(e) {
      DeliveryStepShape(s, e);
    } else if e.Connect? || e.Stop? || e.Greet? {
      forall u | x in s'.outbound && u in s'.outbound[x] ensures x in s.outbound && u in s.outbound[x] {
        OwnGains(s, e, x, u);
      }
    }
  }

  ghost predicate LooseNowhere(s: State, u: Uuid, x: string)
  {
    u in s.loose && x in s.outbound ==> u !in s.outbound[x]
  }

  /** A message on its way to c's queue is in nobody else's store. */
  ghost predicate UnsentElsewhere(s: State, d: nat, c: string, x: string)
  {
    IsUnsent(s, d, c) && x != c && x in s.outbound ==> PhaseOf(s, d, c).m.uuid !in s.outbound[x]
  }

  ghost predicate Apart(s: State)
  {
    (forall u, x {:trigger LooseNowhere(s, u, x)} :: LooseNowhere(s, u, x))
    && (forall d, c, x {:trigger UnsentElsewhere(s, d, c, x)} :: UnsentElsewhere(s, d, c, x))
  }

  /** A step loosens no message that is in a store afterwards. */
  lemma LooseNowhereStep(s: State, e: Event, u: Uuid, x: string)
    requires Enabled(s, e) && Inv(s) && Apart(s) && Step(s, e).Running?
    ensures LooseNowhere(Step(s, e).s, u, x)
  {
    LooseStep(s, e, u);
    StoreGains(s, e, x);
    assert LooseNowhere(s, u, x);
    var s' := Step(s, e).s;
    if Loosens(s, e, u) && x in s'.outbound && u in s'.outbound[x] {
      OwnGains(s, e, x, u);
      LoosenedApart(s, e, u, x);
    }
  }

  /** What a connection loosens is in nobody's store but its own client's. */
  lemma LoosenedApart(s: State, e: Event, u: Uuid, x: string)
    requires Inv(s) && Apart(s) && e.Connect? && Loosens(s, e, u) && x in s.outbound && u in s.outbound[x]
    ensures e.clean && e.c == x
  {
    assert ClientOk(s, x);
    if e.clean && e.c in s.clients && u in Unsent(s, e.c) {
      var k :| k in s.work.pending && k.1 == e.c && IsUnsent(s, k.0, e.c) && s.work.pending[k].phase.m.uuid == u;
      assert UnsentElsewhere(s, k.0, e.c, x);
    }
  }

  /** A task on its way was so before the step, or the step has stored its message under a new UUID. */
  lemma UnsentStep(s: State, e: Event, d: nat, c: string)
    requires Enabled(s, e) && Inv(s) && Step(s, e).Running? && IsUnsent(Step(s, e).s, d, c)
    ensures (IsUnsent(s, d, c) && PhaseOf(s, d, c) == PhaseOf(Step(s, e).s, d, c))
         || (e == PersistFor(d, c) && PhaseOf(Step(s, e).s, d, c).m.uuid == s.nextUuid)
  {
    PendingStep(s, e, d, c);
    assert PendingOk(s, d, c);
    if AtTask(e) && e.d == d && e.c == c {
      OwnUnsentStep(s, e);
    }
  }

  lemma OwnUnsentStep(s: State, e: Event)
    requires AtTask(e) && Enabled(s, e) && TaskStep(s, e).Running? && IsUnsent(TaskStep(s, e).s, e.d, e.c)
    ensures e.PersistFor? && PhaseOf(TaskStep(s, e).s, e.d, e.c).m.uuid == s.nextUuid
  {
  }

  lemma StillElsewhere(s: State, s': State, d: nat, c: string, x: string)
    requires Inv(s) && UnsentElsewhere(s, d, c, x) && GainsNew(s, s', x)
    requires IsUnsent(s, d, c) && PhaseOf(s, d, c) == PhaseOf(s', d, c)
    ensures UnsentElsewhere(s', d, c, x)
  {
    assert PendingOk(s, d, c);
  }

  lemma NewElsewhere(s: State, d: nat, c: string, x: string)
    requires Enabled(s, PersistFor(d, c)) && Inv(s) && c in s.outbound
    requires x != c && x in s.outbound && IsUnsent(PersistStep(s, d, c), d, c)
    ensures PhaseOf(PersistStep(s, d, c), d, c).m.uuid !in PersistStep(s, d, c).outbound[x]
  {
    assert ClientOk(s, x) && PendingOk(s, d, c);
  }

  lemma UnsentElsewhereStep(s: State, e: Event, d: nat, c: string, x: string)
    requires Enabled(s, e) && Inv(s) && Apart(s) && Step(s, e).Running?
    ensures UnsentElsewhere(Step(s, e).s, d, c, x)
  {
    if IsUnsent(Step(s, e).s, d, c) {
      UnsentStep(s, e, d, c);
      if e == PersistFor(d, c) {
        if x != c && x in s.outbound { NewElsewhere(s, d, c, x); }
      } else {
        StoreGains(s, e, x);
        assert UnsentElsewhere(s, d, c, x);
        StillElsewhere(s, Step(s, e).s, d, c, x);
      }
    }
  }

  lemma ApartStep(s: State, e: Event)
    requires Enabled(s, e) && Inv(s) && Apart(s) && Step(s, e).Running?
    ensures Apart(Step(s, e).s)
  {
    var s' := Step(s, e).s;
    forall u, x ensures LooseNowhere(s', u, x) {
      LooseNowhereStep(s, e, u, x);
    }
    forall d: nat, c, x ensures UnsentElsewhere(s', d, c, x) {
      UnsentElsewhereStep(s, e, d, c, x);
    }
  }

  lemma {:induction false} ApartAt(ss: seq<State>, events: seq<Event>, k: nat)
    requires IsTrace(ss, events) && Inv(ss[0]) && Apart(ss[0]) && k < |ss|
    ensures Apart(ss[k])
  {
    if k > 0 {
      var j := k - 1;
      ApartAt(ss, events, j);
      InvAt(ss, events, j);
      assert StepAt(ss, events, j);
      ApartStep(ss[j], events[j]);
    }
  }

  /** Store before queue, exactly: in every state of a run, a queued message above QoS 0 is in its client's
      outbound store, the same but for id and DUP flag, unless an event has loosened it; then it is in no
      client's store. */
  lemma QueuedIsStored(ss: seq<State>, events: seq<Event>, k: nat, c: string, i: nat)
    requires IsRun(ss, events) && k < |ss| && c in ss[k].clients && i < |ss[k].clients[c].queue|
    requires ss[k].clients[c].queue[i].qos > 0
    ensures var s, m := ss[k], ss[k].clients[c].queue[i];
      ((c in s.outbound && m.uuid in s.outbound[c]) <==> !LoosenedBefore(ss, events, k, m.uuid))
      && (LoosenedBefore(ss, events, k, m.uuid) ==> forall x :: x in s.outbound ==> m.uuid !in s.outbound[x])
      && (c in s.outbound && m.uuid in s.outbound[c] ==>
            s.outbound[c][m.uuid].PublishEntry? && SameMessage(s.outbound[c][m.uuid].m, m))
  {
    StartOk(ss[0].depth);
    StartApart(ss[0].depth);
    InvAt(ss, events, k);
    ApartAt(ss, events, k);
    var s, m := ss[k], ss[k].clients[c].queue[i];
    LooseAt(ss, events, k, m.uuid);
    forall x | m.uuid in s.loose && x in s.outbound ensures m.uuid !in s.outbound[x] {
      assert LooseNowhere(s, m.uuid, x);
    }
    assert ClientOk(s, c);
    assert QueuedOk(ConnOf(s, c), m, s.nextUuid, s.loose);
  }

  lemma StartApart(depth: nat)
    ensures Apart(Start(depth))
  {
  }
}
