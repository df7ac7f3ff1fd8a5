/** Which runs of the broker end early, and at which event, told from the events alone; and what holds at
    the end of the others. */
module BrokerEnds {
  import opened Levels
  import opened Qos
  import opened SubscriptionIndex
  import opened Broker
  import opened BrokerSafety
  import opened BrokerRuns
  import opened BrokerMoves
  import Bytes
  import Packets

  // What a connection's events make of a client id.
  datatype Seat = Nobody | Seat(handle: nat, clean: bool, connected: bool)

  /** A new Client object is named by the number of the connection that made it. */
  function SeatNext(seat: Seat, e: Event, c: string, connection: nat): Seat
  {
    if e.Connect? && e.c == c then
      Seat(if seat.Seat? && e.clean then seat.handle else connection, e.clean, true)
    else if e.Stop? && e.c == c then
      if seat.Seat? && !seat.clean then seat.(connected := false) else Nobody
    else seat
  }

  function ConnectionsAt(events: seq<Event>, k: nat): nat
    requires k <= |events|
  {
    if k == 0 then 0 else ConnectionsAt(events, k - 1) + if events[k - 1].Connect? then 1 else 0
  }

  /** Client id c after the first k events. */
  function SeatAt(events: seq<Event>, k: nat, c: string): Seat
    requires k <= |events|
  {
    if k == 0 then Nobody else SeatNext(SeatAt(events, k - 1, c), events[k - 1], c, ConnectionsAt(events, k - 1))
  }

  /** The filters a packet subscribes to. */
  function Asked(e: Event): set<string>
  {
    if Content(e).SubscribeTo? then Members(Content(e).filters) else {}
  }

  function AskedAt(events: seq<Event>, k: nat): set<string>
    requires k <= |events|
  {
    if k == 0 then {} else AskedAt(events, k - 1) + Asked(events[k - 1])
  }

  /** The Client object that sat there has been connected all along, or taken over by a clean connection. */
  predicate StillOn(was: Seat, now: Seat)
  {
    was.Seat? && now.Seat? && now.connected && was.handle == now.handle
  }

  /** Event j is the last before k that generated the client id. */
  predicate GreetsFor(events: seq<Event>, j: nat, k: nat, c: string)
  {
    j < k <= |events| && events[j].Connect? && events[j].c == c && events[j].generated
    && forall i :: j < i < k && events[i].Connect? && events[i].c == c ==> !events[i].generated
  }

  /** Event k works for a recipient that was gone when it was looked up, has no session left to store in,
      or has stopped since. */
  ghost predicate LateAt(events: seq<Event>, k: nat)
    requires k < |events|
  {
    match events[k]
    case CheckConnected(d, c) =>
      exists j :: 0 <= j < k && events[j] == LookUp(d, c) && SeatAt(events, j, c).Nobody?
    case PersistFor(_, c) => SeatAt(events, k, c).Nobody?
    case EnqueueFor(d, c) =>
      exists j :: 0 <= j < k && events[j] == LookUp(d, c) && !StillOn(SeatAt(events, j, c), SeatAt(events, k, c))
    case Greet(c) =>
      exists j: nat :: GreetsFor(events, j, k, c) && !StillOn(SeatAt(events, j + 1, c), SeatAt(events, k, c))
    case _ => false
  }

  ghost predicate OverrunsAt(events: seq<Event>, k: nat)
    requires k < |events|
  {
    events[k].Walk? && LeavesTable(AskedAt(events, k), events[k].topic)
  }

  ghost predicate EndsAt(events: seq<Event>, k: nat)
    requires k < |events|
  {
    Fatal(events[k]) || OverrunsAt(events, k) || LateAt(events, k)
  }

  // ---------------------------------------------------------------------------
  // The state agrees with the reference account.

  /** The seat of a client id in the state. */
  function SeatIn(s: State, c: string): Seat
  {
    if c in s.clients then Seat(s.clients[c].handle, s.clients[c].cleanSession, s.clients[c].connected) else Nobody
  }

  predicate Seated(s: State, c: string, seat: Seat)
  {
    SeatIn(s, c) == seat
  }

  predicate PhaseAgrees(phase: Phase, seat: Seat)
  {
    match phase
    case Waiting => false
    case Missing => seat.Nobody?
    case Found(handle) => seat.Seat? && seat.handle == handle
    case Tested(handle, _) => seat.Seat? && seat.handle == handle
    case Sending(handle, _) => seat.Seat? && seat.handle == handle
  }

  /** Every look-up found what its task knows, and a task that knows something has been looked up. */
  ghost predicate Traced(s: State, events: seq<Event>, n: nat, d: nat, c: string)
    requires n <= |events|
  {
    (forall j {:trigger events[j]} :: 0 <= j < n && events[j] == LookUp(d, c) ==>
       d < s.work.nextDelivery && (HasTask(s, d, c) ==> PhaseAgrees(PhaseOf(s, d, c), SeatAt(events, j, c))))
    && (PhaseOf(s, d, c).Waiting? || exists j :: 0 <= j < n && events[j] == LookUp(d, c))
  }

  ghost predicate GreetingTraced(s: State, events: seq<Event>, n: nat, c: string)
    requires n <= |events|
  {
    c in s.work.greetings ==>
      exists j: nat :: GreetsFor(events, j, n, c)
        && SeatAt(events, j + 1, c).Seat? && SeatAt(events, j + 1, c).handle == s.work.greetings[c].handle
  }

  ghost predicate Tracks(s: State, events: seq<Event>, n: nat)
    requires n <= |events|
  {
    s.nextHandle == ConnectionsAt(events, n) && Added(s.history) == AskedAt(events, n)
    && (forall c {:trigger SeatAt(events, n, c)} :: Seated(s, c, SeatAt(events, n, c)))
    && (forall d, c {:trigger Traced(s, events, n, d, c)} :: Traced(s, events, n, d, c))
    && (forall c {:trigger GreetingTraced(s, events, n, c)} :: GreetingTraced(s, events, n, c))
  }

  // ---------------------------------------------------------------------------
  // The state follows the account.

  /** A connection and a stop are about one client only, and a greeting changes nobody's seat. */
  lemma OwnStepElsewhere(s: State, e: Event, c: string)
    requires e.Greet? || ((e.Connect? || e.Stop?) && e.c != c)
    requires Enabled(s, e) && OwnStep(s, e).Running?
    ensures SameSeat(s, OwnStep(s, e).s, c)
  {
  }

  lemma SeatElsewhere(s: State, e: Event, c: string)
    requires Enabled(s, e) && Step(s, e).Running? && !((e.Connect? || e.Stop?) && e.c == c)
    ensures SameSeat(s, Step(s, e).s, c)
  {
    if AtTask(e) {
      TaskStepShape(s, e, c);
    } else if AtClient(Content(e)) {
      ClientStepShape(s, Content(e), c);
    } else if AtDelivery(e) {
      DeliveryStepShape(s, e);
    } else if e.Connect? || e.Stop? || e.Greet? {
      OwnStepElsewhere(s, e, c);
    }
  }

  /** What a connection and a stop do to their client. */
  lemma OwnSeat(s: State, e: Event)
    requires e.Connect? || e.Stop?
    requires Enabled(s, e) && Inv(s) && OwnStep(s, e).Running?
    ensures SeatIn(OwnStep(s, e).s, e.c) == SeatNext(SeatIn(s, e.c), e, e.c, s.nextHandle)
  {
    assert ClientOk(s, e.c);
  }

  lemma SeatStep(s: State, e: Event, c: string)
    requires Inv(s) && Enabled(s, e) && Step(s, e).Running?
    ensures SeatIn(Step(s, e).s, c) == SeatNext(SeatIn(s, c), e, c, s.nextHandle)
  {
    if (e.Connect? || e.Stop?) && e.c == c {
      OwnSeat(s, e);
    } else {
      SeatElsewhere(s, e, c);
    }
  }

  lemma OwnStepHandles(s: State, e: Event)
    requires e.Connect? || e.Stop? || e.Greet?
    requires Enabled(s, e) && OwnStep(s, e).Running?
    ensures OwnStep(s, e).s.nextHandle == s.nextHandle + if e.Connect? then 1 else 0
  {
  }

  lemma HandleStep(s: State, e: Event)
    requires Enabled(s, e) && Step(s, e).Running?
    ensures Step(s, e).s.nextHandle == s.nextHandle + if e.Connect? then 1 else 0
  {
    if AtTask(e) {
      TaskStepShape(s, e, e.c);
    } else if AtClient(Content(e)) {
      ClientStepShape(s, Content(e), e.c);
    } else if AtDelivery(e) {
      DeliveryStepShape(s, e);
    } else if e.Connect? || e.Stop? || e.Greet? {
      OwnStepHandles(s, e);
    }
  }

  lemma {:induction false} AddOpsAdd(history: seq<SubOp>, c: string, filters: seq<string>, qoss: seq<QosByte>)
    requires |filters| == |qoss|
    ensures Added(history + AddOps(c, filters, qoss)) == Added(history) + Members(filters)
    decreases |filters|
  {
    if filters == [] {
      assert history + [] == history;
    } else {
      var n := |filters| - 1;
      var before, op := AddOps(c, filters[..n], qoss[..n]), AddOp(c, filters[n], qoss[n]);
      AddOpsAdd(history, c, filters[..n], qoss[..n]);
      HistoryGrows(history + before, op);
      assert history + (before + [op]) == history + before + [op];
      MembersOneMore(filters, n);
      assert filters[..n + 1] == filters;
    }
  }

  /** The operations of a packet that subscribes add its filters, and no others add any. */
  lemma OpsAdd(s: State, e: Event)
    requires Content(e).SubscribeTo? ==> |Content(e).filters| == |Content(e).qoss|
    ensures Added(s.history + NewOps(s, e)) == Added(s.history) + Asked(e)
  {
    if Content(e).SubscribeTo? {
      AddOpsAdd(s.history, Content(e).c, Content(e).filters, Content(e).qoss);
    } else if NewOps(s, e) != [] {
      HistoryGrows(s.history, NewOps(s, e)[0]);
    } else {
      assert s.history + [] == s.history;
    }
  }

  lemma AskedStep(s: State, e: Event)
    requires Enabled(s, e) && Step(s, e).Running?
    ensures Added(Step(s, e).s.history) == Added(s.history) + Asked(e)
  {
    HistoryStep(s, e);
    OpsAdd(s, e);
  }

  // ---------------------------------------------------------------------------
  // The reference account stays right, so it tells which events end the process.

  lemma TracedStep(s: State, events: seq<Event>, n: nat, d: nat, c: string)
    requires n < |events| && Enabled(s, events[n]) && Inv(s) && Step(s, events[n]).Running?
    requires Tracks(s, events, n)
    ensures Traced(Step(s, events[n]).s, events, n + 1, d, c)
  {
    PendingStep(s, events[n], d, c);
    assert PendingOk(s, d, c);
    assert Traced(s, events, n, d, c) && Seated(s, c, SeatAt(events, n, c));
    if (d, c) in s.work.pending && events[n] == LookUp(d, c) {
      assert PhaseOf(s, d, c).Waiting?;
    }
    TracedAfter(s, events, n, Step(s, events[n]).s, d, c);
  }

  lemma TracedAfter(s: State, events: seq<Event>, n: nat, s': State, d: nat, c: string)
    requires n < |events| && TaskMoved(s, events[n], s', d, c) && Traced(s, events, n, d, c)
    requires Seated(s, c, SeatAt(events, n, c))
    requires (d, c) in s.work.pending ==> d < s.work.nextDelivery
    requires events[n] == LookUp(d, c) ==> (d, c) in s.work.pending && PhaseOf(s, d, c).Waiting?
    ensures Traced(s', events, n + 1, d, c)
  {
    var e := events[n];
    if (d, c) in s.work.pending && !PhaseOf(s, d, c).Waiting? {
      var j :| 0 <= j < n && events[j] == LookUp(d, c);
      assert PhaseAgrees(PhaseOf(s, d, c), SeatAt(events, j, c));
    }
    forall j | 0 <= j < n + 1 && events[j] == LookUp(d, c)
      ensures d < s'.work.nextDelivery
      ensures HasTask(s', d, c) ==> PhaseAgrees(PhaseOf(s', d, c), SeatAt(events, j, c))
    {
    }
    if !PhaseOf(s', d, c).Waiting? && e == LookUp(d, c) {
      assert events[n] == LookUp(d, c);
    }
  }

  lemma GreetingTracedStep(s: State, events: seq<Event>, n: nat, c: string)
    requires n < |events| && Enabled(s, events[n]) && Inv(s) && Step(s, events[n]).Running?
    requires Tracks(s, events, n)
    ensures GreetingTraced(Step(s, events[n]).s, events, n + 1, c)
  {
    var e, s' := events[n], Step(s, events[n]).s;
    GreetingMovesStep(s, e, c);
    SeatStep(s, e, c);
    assert Seated(s, c, SeatAt(events, n, c));
    if c in s'.work.greetings {
      if e.Connect? && e.c == c && e.generated {
        assert GreetsFor(events, n, n + 1, c);
      } else {
        assert GreetingTraced(s, events, n, c);
        var j: nat :| GreetsFor(events, j, n, c) && SeatAt(events, j + 1, c).Seat?
                      && SeatAt(events, j + 1, c).handle == s.work.greetings[c].handle;
        assert GreetsFor(events, j, n + 1, c);
      }
    }
  }

  lemma TracksStep(s: State, events: seq<Event>, n: nat)
    requires n < |events| && Enabled(s, events[n]) && Inv(s) && Step(s, events[n]).Running?
    requires Tracks(s, events, n)
    ensures Tracks(Step(s, events[n]).s, events, n + 1)
  {
    var s', m := Step(s, events[n]).s, n + 1;
    AskedStep(s, events[n]);
    HandleStep(s, events[n]);
    forall c ensures Seated(s', c, SeatAt(events, m, c)) && GreetingTraced(s', events, m, c) {
      SeatStep(s, events[n], c);
      GreetingTracedStep(s, events, n, c);
    }
    forall d: nat, c ensures Traced(s', events, m, d, c) {
      TracedStep(s, events, n, d, c);
    }
  }

  /** What the state knows of a recipient is what the events say. */
  lemma LateIsMeetsNothing(s: State, events: seq<Event>, n: nat)
    requires n < |events| && Enabled(s, events[n]) && Inv(s) && Tracks(s, events, n)
    ensures LateAt(events, n) <==> MeetsNothing(s, events[n])
  {
    match events[n]
    case CheckConnected(d, c) => assert Traced(s, events, n, d, c);
    case PersistFor(_, c) => assert ClientOk(s, c) && Seated(s, c, SeatAt(events, n, c));
    case EnqueueFor(d, c) => assert Traced(s, events, n, d, c) && Seated(s, c, SeatAt(events, n, c));
    case Greet(c) => assert GreetingTraced(s, events, n, c) && Seated(s, c, SeatAt(events, n, c));
    case _ =>
  }

  lemma EndsAtIsEnds(s: State, events: seq<Event>, n: nat)
    requires n < |events| && Enabled(s, events[n]) && Inv(s) && Tracks(s, events, n)
    ensures EndsAt(events, n) <==> Ends(s, events[n])
  {
    LateIsMeetsNothing(s, events, n);
  }

  lemma {:induction false} TracksAt(ss: seq<State>, events: seq<Event>, k: nat)
    requires IsTrace(ss, events) && Inv(ss[0]) && Tracks(ss[0], events, 0) && k < |ss|
    ensures Tracks(ss[k], events, k)
  {
    if k > 0 {
      InvAt(ss, events, k - 1);
      TracksAt(ss, events, k - 1);
      assert StepAt(ss, events, k - 1);
      TracksGoes(ss[k - 1], events, k - 1, ss[k]);
    }
  }

  lemma TracksGoes(s: State, events: seq<Event>, n: nat, s': State)
    requires n < |events| && Inv(s) && Tracks(s, events, n) && Goes(s, events[n], s')
    ensures Tracks(s', events, n + 1)
  {
    TracksStep(s, events, n);
    assert s' == Step(s, events[n]).s;
  }

  lemma StartTracks(depth: nat, events: seq<Event>)
    ensures Inv(Start(depth)) && Tracks(Start(depth), events, 0)
  {
  }

  /** An event that can happen next ends the process exactly where the events so far say: at fatal input,
      at a topic that leaves the table, or at work for a recipient that has gone. */
  lemma RunEndsExactly(ss: seq<State>, events: seq<Event>)
    requires IsRun(ss, events) && |ss| <= |events| && Enabled(ss[|ss| - 1], events[|ss| - 1])
    ensures Step(ss[|ss| - 1], events[|ss| - 1]).Crashed? <==> EndsAt(events, |ss| - 1)
    ensures forall k :: 0 <= k < |ss| - 1 ==> !EndsAt(events, k)
  {
    StartTracks(ss[0].depth, events);
    EndsHere(ss, events, |ss| - 1);
    forall k | 0 <= k < |ss| - 1 ensures !EndsAt(events, k) {
      assert StepAt(ss, events, k);
      EndsHere(ss, events, k);
    }
  }

  lemma EndsHere(ss: seq<State>, events: seq<Event>, k: nat)
    requires IsTrace(ss, events) && Inv(ss[0]) && Tracks(ss[0], events, 0)
    requires k < |ss| && k < |events| && Enabled(ss[k], events[k])
    ensures Step(ss[k], events[k]).Crashed? <==> EndsAt(events, k)
  {
    InvAt(ss, events, k);
    TracksAt(ss, events, k);
    EndsAtIsEnds(ss[k], events, k);
    InvStep(ss[k], events[k]);
  }

  /** Every state knows the clients the events so far leave there, each with both stores, and no other. */
  lemma KnownExactly(ss: seq<State>, events: seq<Event>, k: nat, c: string)
    requires IsRun(ss, events) && k < |ss|
    ensures Seated(ss[k], c, SeatAt(events, k, c)) && HasStores(ss[k], c) == (c in ss[k].clients)
  {
    StartTracks(ss[0].depth, events);
    InvAt(ss, events, k);
    TracksAt(ss, events, k);
    assert ClientOk(ss[k], c);
  }

  /** Event j is the last connection of c before k. */
  predicate LastConnection(events: seq<Event>, j: nat, k: nat, c: string)
  {
    j < k <= |events| && events[j].Connect? && events[j].c == c
    && forall i :: j < i < k ==> !(events[i].Connect? && events[i].c == c)
  }

  ghost predicate StoppedBetween(events: seq<Event>, j: nat, k: nat, c: string)
    requires k <= |events|
  {
    exists i :: j < i < k && events[i] == Stop(c)
  }

  /** A client id is gone exactly if it never connected, or its last session was clean and has stopped. */
  lemma {:induction false} GoneMeaning(events: seq<Event>, k: nat, c: string)
    requires k <= |events|
    ensures SeatAt(events, k, c).Nobody?
       <==> forall j: nat :: LastConnection(events, j, k, c) ==> events[j].clean && StoppedBetween(events, j, k, c)
    ensures forall j: nat :: LastConnection(events, j, k, c) && SeatAt(events, k, c).Seat? ==>
      SeatAt(events, k, c).clean == events[j].clean
  {
    if k > 0 {
      var n := k - 1;
      GoneMeaning(events, n, c);
      if events[n].Connect? && events[n].c == c {
        assert LastConnection(events, n, k, c);
      } else {
        forall j: nat
          ensures LastConnection(events, j, k, c) <==> LastConnection(events, j, n, c)
          ensures j < n ==> (StoppedBetween(events, j, k, c)
                             <==> StoppedBetween(events, j, n, c) || events[n] == Stop(c))
        {
        }
        if events[n] == Stop(c) && SeatAt(events, n, c).Seat? {
          var j: nat :| LastConnection(events, j, n, c) && !(events[j].clean && StoppedBetween(events, j, n, c));
          assert LastConnection(events, j, k, c);
        }
      }
    }
  }

  // ---------------------------------------------------------------------------
  // What holds at the end of the others.

  lemma DepthStep(s: State, e: Event)
    requires Enabled(s, e) && Step(s, e).Running?
    ensures Step(s, e).s.depth == s.depth
  {
    if AtTask(e) {
      TaskStepShape(s, e, e.c);
    } else if AtClient(Content(e)) {
      ClientStepShape(s, Content(e), e.c);
    } else if AtDelivery(e) {
      DeliveryStepShape(s, e);
    } else if e.Connect? || e.Stop? || e.Greet? {
      OwnStepDepth(s, e);
    }
  }

  lemma OwnStepDepth(s: State, e: Event)
    requires e.Connect? || e.Stop? || e.Greet?
    requires Enabled(s, e) && OwnStep(s, e).Running?
    ensures OwnStep(s, e).s.depth == s.depth
  {
  }

  lemma {:induction false} DepthAt(ss: seq<State>, events: seq<Event>, k: nat)
    requires IsTrace(ss, events) && k < |ss|
    ensures ss[k].depth == ss[0].depth
  {
    if k > 0 {
      DepthAt(ss, events, k - 1);
      assert StepAt(ss, events, k - 1);
      DepthStep(ss[k - 1], events[k - 1]);
    }
  }

  /** In every state of a run, every subscriber is a known client with both stores, and each client's queues
      fit the configured depth. */
  lemma NothingIsMissing(ss: seq<State>, events: seq<Event>, k: nat)
    requires IsRun(ss, events) && k < |ss|
    ensures forall c, f :: (c, f) in Subs(ss[k].history) ==> c in ss[k].clients && HasStores(ss[k], c)
    ensures forall c :: c in ss[k].clients ==>
      |ss[k].clients[c].queue| <= ss[0].depth && |ss[k].clients[c].priority| <= ss[0].depth
  {
    StartOk(ss[0].depth);
    InvAt(ss, events, k);
    DepthAt(ss, events, k);
    InvMeaning(ss[k]);
  }

  lemma InvMeaning(s: State)
    requires Inv(s)
    ensures forall c, f :: (c, f) in Subs(s.history) ==> c in s.clients && HasStores(s, c)
    ensures forall c :: c in s.clients ==> |s.clients[c].queue| <= s.depth && |s.clients[c].priority| <= s.depth
  {
    forall c, f | (c, f) in Subs(s.history) ensures c in s.clients && HasStores(s, c) {
      assert SubscriberOk(s, c, f) && ClientOk(s, c);
    }
    forall c | c in s.clients ensures |s.clients[c].queue| <= s.depth && |s.clients[c].priority| <= s.depth {
      assert ClientOk(s, c);
    }
  }

  /** A connection changes no subscription. So a clean session starts with exactly those of the durable session
      before it, which the standard wants discarded (section 3.1.2.4 of MQTT 3.1.1), and with none if there was
      no session. */
  lemma CleanSessionStartsWith(s: State, e: Event, f: string)
    requires Inv(s) && Enabled(s, e) && e.Connect? && e.clean
    ensures Subs(ConnectStep(s, e).history) == Subs(s.history)
    ensures (e.c, f) in Subs(s.history) ==> e.c in s.clients && !s.clients[e.c].connected
  {
    assert SubscriberOk(s, e.c, f);
  }

  // ---------------------------------------------------------------------------
  // Frames.

  /** Nothing in a frame keeps it from being handled, once Receive has got rid of its last reply. */
  lemma FrameEnabled(s: State, c: string, bytes: seq<Bytes.Byte>)
    ensures Enabled(s, Frame(c, bytes)) <==> Connected(s, c) && c !in s.intake.replying
  {
    if Packets.ReadPacket(bytes).Got? {
      Packets.GotIsReadable(bytes);
    }
  }

  /** The frames that end the process, in terms of the packet in them. */
  lemma FatalFrames(c: string, bytes: seq<Bytes.Byte>)
    ensures Fatal(Frame(c, bytes)) <==>
      match Packets.ReadPacket(bytes)
      case Panics => true
      case Got(Subscribe(_, _, topics, _), _) =>
        exists i :: 0 <= i < |topics| && |Split(Text(topics[i]))| >= 10
      case Got(Unsubscribe(_, _, topics), _) => topics == []
      case _ => false
  {
    var r := Read(c, bytes);
    if r.Handles? && r.e.SubscribeTo? {
      var topics := Packets.ReadPacket(bytes).packet.topics;
      assert r.e.filters == Texts(topics);
      if i :| 0 <= i < |topics| && |Split(Text(topics[i]))| >= LEVELS {
        assert r.e.filters[i] in r.e.filters;
      }
    }
  }
}
