/** Runs in which the work for a recipient meets nothing, a queued message is not stored, or a clean session
    starts subscribed: every exception in the theorems about runs does happen, to any client id and any
    filter that fits. */
module BrokerExamples {
  import opened Levels
  import opened Qos
  import opened Messages
  import opened SubscriptionIndex
  import opened Persistence
  import opened Session
  import opened Broker
  import opened BrokerRuns
  import Bytes
  import Length
  import Packets
  import Interleaved

  /** A whole run, and the state it ends in. */
  ghost predicate RunsTo(ss: seq<State>, events: seq<Event>, s: State)
  {
    IsRun(ss, events) && |ss| == |events| + 1 && ss[|events|] == s
  }

  ghost predicate Reaches(events: seq<Event>, s: State)
  {
    exists ss :: RunsTo(ss, events, s)
  }

  lemma Begin(depth: nat)
    ensures Reaches([], Start(depth))
  {
    assert RunsTo([Start(depth)], [], Start(depth));
  }

  lemma Extend(events: seq<Event>, s: State, e: Event, s': State)
    requires Reaches(events, s) && Goes(s, e, s')
    ensures Reaches(events + [e], s')
  {
    var ss :| RunsTo(ss, events, s);
    var longer := events + [e];
    forall k: nat | k + 1 < |ss| ensures StepAt(ss, longer, k) {
      assert StepAt(ss, events, k);
    }
    LongerTrace(ss, longer, s');
    assert RunsTo(ss + [s'], longer, s');
  }

  // ---------------------------------------------------------------------------
  // A client subscribes to f, and a message for f has just been given to its own goroutine.

  function Payload(): seq<QosByte> { [0] }

  function Admitted(c: string, clean: bool): State { Admit(Start(1), c, clean) }

  function Subscribed(c: string, f: string, clean: bool): State
  {
    WithReply(Admitted(c, clean).(history := [AddOp(c, f, 1)],
                                  intake := Intake(map[], multiset{Finder(c, f, 1)}, map[])), c,
              Control(Suback([1]), 0))
  }

  function Replied(c: string, f: string, clean: bool): State { ReplyStep(Subscribed(c, f, clean), c) }

  function Walked(c: string, f: string, clean: bool): State
  {
    Replied(c, f, clean).(work := Work(map[0 := Gather(f, Payload(), 1, [f], map[])], map[], map[], 1, 1))
  }

  function Gathered(c: string, f: string, clean: bool): State
  {
    Replied(c, f, clean).(work := Work(map[0 := Gather(f, Payload(), 1, [], map[c := 1])], map[], map[], 1, 1))
  }

  function Handed(c: string, f: string, clean: bool, phase: Phase): State
  {
    Replied(c, f, clean).(work := Work(map[], map[(1, c) := Task(f, Payload(), 1, 0, phase)], map[], 1, 2),
                          nextUuid := 1)
  }

  lemma AdmittedStep(c: string, clean: bool)
    ensures Goes(Start(1), Connect(c, clean, false, [], []), Admitted(c, clean))
  {
  }

  lemma OneAddOp(c: string, f: string, q: QosByte)
    ensures AddOps(c, [f], [q]) == [AddOp(c, f, q)] && Finders(c, [f], [q]) == multiset{Finder(c, f, q)}
  {
    var n := 0;
    assert AddOps(c, [f][..n], [q][..n]) == [];
    assert seq(1, i requires 0 <= i < 1 => Finder(c, [f][i], [q][i])) == [Finder(c, f, q)];
  }

  lemma SubscribedState(c: string, f: string, clean: bool)
    ensures var e := SubscribeTo(c, [f], [1], 0);
      Ready(Admitted(c, clean), e) && ClientStep(Admitted(c, clean), e) == Subscribed(c, f, clean)
  {
    OneAddOp(c, f, 1);
    assert Admitted(c, clean).history + [AddOp(c, f, 1)] == [AddOp(c, f, 1)];
    assert multiset{} + multiset{Finder(c, f, 1)} == multiset{Finder(c, f, 1)};
  }

  lemma SubscribeGoes(s: State, e: Event, s': State)
    requires e.SubscribeTo? && Ready(s, e) && Enabled(s, e) && !Fatal(e) && ClientStep(s, e) == s'
    ensures Goes(s, e, s')
  {
  }

  lemma SubscribedStep(c: string, f: string, clean: bool)
    requires |Split(f)| < LEVELS
    ensures Goes(Admitted(c, clean), SubscribeTo(c, [f], [1], 0), Subscribed(c, f, clean))
  {
    SubscribedState(c, f, clean);
    SubscribeGoes(Admitted(c, clean), SubscribeTo(c, [f], [1], 0), Subscribed(c, f, clean));
  }

  lemma RepliedStep(c: string, f: string, clean: bool)
    ensures Goes(Subscribed(c, f, clean), Reply(c), Replied(c, f, clean))
  {
  }

  lemma OneAdded(history: seq<SubOp>, c: string, f: string)
    requires history == [AddOp(c, f, 1)]
    ensures Added(history) == {f} && Subs(history) == map[(c, f) := 1]
  {
    HistoryGrows(history[..0], history[0]);
    assert history[..0] + [history[0]] == history;
  }

  lemma SelectsItself(f: string)
    ensures Chosen({f}, f, false) == {f} == Members([f])
  {
    assert LiveAfter(Rows(f), Rows(f), |Rows(f)|);
  }

  lemma WalkedState(c: string, f: string, clean: bool)
    ensures WalkStep(Replied(c, f, clean), Walk(f, Payload(), 1, [f])) == Walked(c, f, clean)
  {
    var s := Replied(c, f, clean);
    assert s.work.gathering[0 := Gather(f, Payload(), 1, [f], map[])] == map[0 := Gather(f, Payload(), 1, [f], map[])];
  }

  lemma WalkGoes(s: State, f: string, s': State)
    requires Added(s.history) == {f} && |Split(f)| < LEVELS && WalkStep(s, Walk(f, Payload(), 1, [f])) == s'
    ensures Goes(s, Walk(f, Payload(), 1, [f]), s')
  {
    SelectsItself(f);
  }

  lemma WalkedStep(c: string, f: string, clean: bool)
    requires |Split(f)| < LEVELS
    ensures Goes(Replied(c, f, clean), Walk(f, Payload(), 1, [f]), Walked(c, f, clean))
  {
    OneAdded(Replied(c, f, clean).history, c, f);
    WalkedState(c, f, clean);
    WalkGoes(Replied(c, f, clean), f, Walked(c, f, clean));
  }

  lemma OneRead(history: seq<SubOp>, todo: seq<string>, c: string, f: string)
    requires history == [AddOp(c, f, 1)] && todo == [f]
    ensures Interleaved.Step(Interleaved.State(history, todo, map[]), Interleaved.ReadRow, 1)
         == Interleaved.State(history, [], map[c := 1])
  {
    OneAdded(history, c, f);
    var row, none: Row := map[c := 1], map[];
    assert RowOf(map[(c, f) := 1], f) == row;
    assert MergeRow(none, row, 1) == row;
    assert todo[1..] == [];
  }

  lemma Replaced<T>(was: T, now: T, k: nat)
    ensures map[k := was][k := now] == map[k := now]
  {
  }

  lemma GatheredState(c: string, f: string, clean: bool)
    ensures ReadRowStep(Walked(c, f, clean), 0) == Gathered(c, f, clean)
  {
    var s := Walked(c, f, clean);
    var was, now := s.work.gathering[0], Gathered(c, f, clean).work.gathering[0];
    OneRead(s.history, was.todo, c, f);
    Replaced(was, now, 0);
  }

  lemma GatheredStep(c: string, f: string, clean: bool)
    ensures Goes(Walked(c, f, clean), ReadRow(0), Gathered(c, f, clean))
  {
    GatheredState(c, f, clean);
    ReadGoes(Walked(c, f, clean), 0);
  }

  lemma ReadGoes(s: State, g: nat)
    requires g in s.work.gathering && s.work.gathering[g].todo != []
    ensures Goes(s, ReadRow(g), ReadRowStep(s, g))
  {
  }

  lemma HandedState(c: string, f: string, clean: bool)
    ensures DispatchStep(Gathered(c, f, clean), 0) == Handed(c, f, clean, Waiting)
  {
    var s' := DispatchStep(Gathered(c, f, clean), 0);
    assert s'.work.pending == map[(1, c) := Task(f, Payload(), 1, 0, Waiting)];
    assert s'.work.gathering == map[];
  }

  lemma HandedStep(c: string, f: string, clean: bool)
    ensures Goes(Gathered(c, f, clean), Dispatch(0), Handed(c, f, clean, Waiting))
  {
    HandedState(c, f, clean);
  }

  function Subscribing(c: string, f: string, clean: bool): seq<Event>
  {
    [] + [Connect(c, clean, false, [], [])] + [SubscribeTo(c, [f], [1], 0)] + [Reply(c)]
  }

  lemma SubscribingRuns(c: string, f: string, clean: bool)
    requires |Split(f)| < LEVELS
    ensures Reaches(Subscribing(c, f, clean), Replied(c, f, clean))
  {
    var connect := [] + [Connect(c, clean, false, [], [])];
    Begin(1);
    AdmittedStep(c, clean);
    Extend([], Start(1), Connect(c, clean, false, [], []), Admitted(c, clean));
    SubscribedStep(c, f, clean);
    Extend(connect, Admitted(c, clean), SubscribeTo(c, [f], [1], 0), Subscribed(c, f, clean));
    RepliedStep(c, f, clean);
    Extend(connect + [SubscribeTo(c, [f], [1], 0)], Subscribed(c, f, clean), Reply(c), Replied(c, f, clean));
  }

  function Opening(c: string, f: string, clean: bool): seq<Event>
  {
    Subscribing(c, f, clean) + [Walk(f, Payload(), 1, [f])] + [ReadRow(0)] + [Dispatch(0)]
  }

  lemma OpeningRuns(c: string, f: string, clean: bool)
    requires |Split(f)| < LEVELS
    ensures Reaches(Opening(c, f, clean), Handed(c, f, clean, Waiting))
  {
    var before := Subscribing(c, f, clean);
    SubscribingRuns(c, f, clean);
    WalkedStep(c, f, clean);
    Extend(before, Replied(c, f, clean), Walk(f, Payload(), 1, [f]), Walked(c, f, clean));
    GatheredStep(c, f, clean);
    Extend(before + [Walk(f, Payload(), 1, [f])], Walked(c, f, clean), ReadRow(0), Gathered(c, f, clean));
    HandedStep(c, f, clean);
    Extend(before + [Walk(f, Payload(), 1, [f])] + [ReadRow(0)], Gathered(c, f, clean), Dispatch(0),
           Handed(c, f, clean, Waiting));
  }

  // ---------------------------------------------------------------------------
  // Ways the message meets nothing.

  /** The run can go on with event e, which ends the process. */
  ghost predicate CrashesWith(events: seq<Event>, e: Event)
  {
    exists s :: Reaches(events, s) && Enabled(s, e) && Step(s, e).Crashed?
  }

  lemma LookedUpStep(c: string, f: string, clean: bool)
    ensures Goes(Handed(c, f, clean, Waiting), LookUp(1, c), Handed(c, f, clean, Found(0)))
  {
    var s := Handed(c, f, clean, Waiting);
    assert WithPhase(s, 1, c, Found(0)).work.pending == Handed(c, f, clean, Found(0)).work.pending;
  }

  lemma CheckedStep(c: string, f: string, clean: bool)
    ensures Goes(Handed(c, f, clean, Found(0)), CheckConnected(1, c), Handed(c, f, clean, Tested(0, true)))
  {
    var s := Handed(c, f, clean, Found(0));
    assert WithPhase(s, 1, c, Tested(0, true)).work.pending == Handed(c, f, clean, Tested(0, true)).work.pending;
  }

  /** A client with no reply on its way stops. */
  lemma Stops(s: State, c: string)
    requires Connected(s, c) && c !in s.intake.replying
    ensures Goes(s, Stop(c), StopStep(s, c))
  {
  }

  /** A clean session that has stopped is unknown. */
  lemma Forgotten(s: State, c: string)
    requires Connected(s, c) && s.clients[c].cleanSession
    ensures var s' := StopStep(s, c); c !in s'.clients && c !in s'.outbound && s'.work == s.work
  {
  }

  lemma LooksUpNobody(s: State, d: nat, c: string)
    requires c !in s.clients && HasTask(s, d, c) && PhaseOf(s, d, c).Waiting?
    ensures Goes(s, LookUp(d, c), WithPhase(s, d, c, Missing))
    ensures var s' := WithPhase(s, d, c, Missing);
      Enabled(s', CheckConnected(d, c)) && Step(s', CheckConnected(d, c)).Crashed?
  {
  }

  lemma StoresNowhere(s: State, d: nat, c: string, handle: nat)
    requires c !in s.clients && c !in s.outbound && PhaseOf(s, d, c) == Found(handle) && s.work.pending[(d, c)].qos > 0
    ensures Goes(s, CheckConnected(d, c), WithPhase(s, d, c, Tested(handle, false)))
    ensures var s' := WithPhase(s, d, c, Tested(handle, false));
      Enabled(s', PersistFor(d, c)) && Step(s', PersistFor(d, c)).Crashed?
  {
  }

  /** The subscriber of a clean session stops before it is looked up: there is no client. */
  lemma StoppedBeforeLookUp(c: string, f: string)
    requires |Split(f)| < LEVELS
    ensures CrashesWith(Opening(c, f, true) + [Stop(c)] + [LookUp(1, c)], CheckConnected(1, c))
  {
    var s, opening := Handed(c, f, true, Waiting), Opening(c, f, true);
    var s1 := StopStep(s, c);
    OpeningRuns(c, f, true);
    Stops(s, c);
    Extend(opening, s, Stop(c), s1);
    Forgotten(s, c);
    LooksUpNobody(s1, 1, c);
    Extend(opening + [Stop(c)], s1, LookUp(1, c), WithPhase(s1, 1, c, Missing));
  }

  /** It stops after it was looked up: there is no store. */
  lemma StoppedBeforeStore(c: string, f: string)
    requires |Split(f)| < LEVELS
    ensures CrashesWith(Opening(c, f, true) + [LookUp(1, c)] + [Stop(c)] + [CheckConnected(1, c)], PersistFor(1, c))
  {
    var s, opening := Handed(c, f, true, Found(0)), Opening(c, f, true);
    var s1 := StopStep(s, c);
    OpeningRuns(c, f, true);
    LookedUpStep(c, f, true);
    Extend(opening, Handed(c, f, true, Waiting), LookUp(1, c), s);
    Stops(s, c);
    Extend(opening + [LookUp(1, c)], s, Stop(c), s1);
    Forgotten(s, c);
    StoresNowhere(s1, 1, c, 0);
    Extend(opening + [LookUp(1, c)] + [Stop(c)], s1, CheckConnected(1, c), WithPhase(s1, 1, c, Tested(0, false)));
  }

  function Sent(f: string): Message { Message(1, f, Payload(), 1, false, false, 0) }

  /** Looked up, found connected, and stored for. */
  function Stored(c: string, f: string): State
  {
    var s := Handed(c, f, false, Sending(0, Sent(f)));
    s.(outbound := map[c := map[1 := PublishEntry(Sent(f), 1)]], nextUuid := 2)
  }

  lemma StoredState(c: string, f: string)
    ensures PersistStep(Handed(c, f, false, Tested(0, true)), 1, c) == Stored(c, f)
  {
    var s := Handed(c, f, false, Tested(0, true));
    var entry := PublishEntry(Sent(f), 1);
    assert AddTo(s.outbound[c], 1, entry) == map[1 := entry];
    assert s.outbound[c := map[1 := entry]] == Stored(c, f).outbound;
    assert PersistStep(s, 1, c).work.pending == Stored(c, f).work.pending;
  }

  lemma StoredStep(c: string, f: string)
    ensures Goes(Handed(c, f, false, Tested(0, true)), PersistFor(1, c), Stored(c, f))
  {
    StoredState(c, f);
  }

  function Storing(c: string, f: string): seq<Event>
  {
    Opening(c, f, false) + [LookUp(1, c)] + [CheckConnected(1, c)] + [PersistFor(1, c)]
  }

  lemma StoringRuns(c: string, f: string)
    requires |Split(f)| < LEVELS
    ensures Reaches(Storing(c, f), Stored(c, f))
  {
    var opening := Opening(c, f, false);
    OpeningRuns(c, f, false);
    LookedUpStep(c, f, false);
    Extend(opening, Handed(c, f, false, Waiting), LookUp(1, c), Handed(c, f, false, Found(0)));
    CheckedStep(c, f, false);
    Extend(opening + [LookUp(1, c)], Handed(c, f, false, Found(0)), CheckConnected(1, c),
           Handed(c, f, false, Tested(0, true)));
    StoredStep(c, f);
    Extend(opening + [LookUp(1, c)] + [CheckConnected(1, c)], Handed(c, f, false, Tested(0, true)),
           PersistFor(1, c), Stored(c, f));
  }

  lemma SendsNowhere(s: State, d: nat, c: string, handle: nat, m: Message)
    requires !Live(s, c, handle) && PhaseOf(s, d, c) == Sending(handle, m)
    ensures Enabled(s, EnqueueFor(d, c)) && Step(s, EnqueueFor(d, c)).Crashed?
  {
  }

  /** A durable client stops between the store and the send: the channel is closed. */
  lemma StoppedBeforeSend(c: string, f: string)
    requires |Split(f)| < LEVELS
    ensures CrashesWith(Storing(c, f) + [Stop(c)], EnqueueFor(1, c))
  {
    var s := Stored(c, f);
    StoringRuns(c, f);
    Stops(s, c);
    Extend(Storing(c, f), s, Stop(c), StopStep(s, c));
    SendsNowhere(StopStep(s, c), 1, c, 0, Sent(f));
  }

  // ---------------------------------------------------------------------------
  // A durable client comes back clean.

  lemma Returns(s: State, c: string)
    requires c in s.clients && !s.clients[c].connected
    ensures Goes(s, Connect(c, true, false, [], []), TakeOver(s, c))
  {
  }

  lemma Enqueues(s: State, d: nat, c: string, m: Message)
    requires Connected(s, c) && PhaseOf(s, d, c) == Sending(s.clients[c].handle, m)
    ensures Goes(s, EnqueueFor(d, c), EnqueueStep(s, d, c))
  {
  }

  /** If it does so between the store and the send, the message is queued and no longer stored. */
  lemma QueuedNotStored(c: string, f: string) returns (s: State)
    requires |Split(f)| < LEVELS
    ensures Reaches(Storing(c, f) + [Stop(c)] + [Connect(c, true, false, [], [])] + [EnqueueFor(1, c)], s)
    ensures c in s.clients && c in s.outbound && s.clients[c].queue == [Sent(f)] && s.outbound[c] == map[]
  {
    var s1 := StopStep(Stored(c, f), c);
    var s2 := TakeOver(s1, c);
    StoringRuns(c, f);
    Stops(Stored(c, f), c);
    Extend(Storing(c, f), Stored(c, f), Stop(c), s1);
    Returns(s1, c);
    Extend(Storing(c, f) + [Stop(c)], s1, Connect(c, true, false, [], []), s2);
    Enqueues(s2, 1, c, Sent(f));
    s := EnqueueStep(s2, 1, c);
    Extend(Storing(c, f) + [Stop(c)] + [Connect(c, true, false, [], [])], s2, EnqueueFor(1, c), s);
  }

  /** And it is still subscribed, though it asked for a session without a past. */
  lemma CleanSessionIsSubscribed(c: string, f: string) returns (s: State)
    requires |Split(f)| < LEVELS
    ensures Reaches(Subscribing(c, f, false) + [Stop(c)] + [Connect(c, true, false, [], [])], s)
    ensures (c, f) in Subs(s.history) && c in s.clients && s.clients[c].cleanSession
  {
    var s1 := StopStep(Replied(c, f, false), c);
    SubscribingRuns(c, f, false);
    Stops(Replied(c, f, false), c);
    Extend(Subscribing(c, f, false), Replied(c, f, false), Stop(c), s1);
    Returns(s1, c);
    s := TakeOver(s1, c);
    Extend(Subscribing(c, f, false) + [Stop(c)], s1, Connect(c, true, false, [], []), s);
    OneAdded(s.history, c, f);
  }

  // ---------------------------------------------------------------------------
  // Fatal input.

  lemma OneDigit(b: Bytes.Byte)
    requires b < 128
    ensures Length.LengthHalts([b]) && Length.LengthAt([b]) == Length.Decoded(b, [])
  {
    assert Length.Digits(b) == [b];
    assert [b] + [] == [b];
    Length.LengthIdentity(b, []);
  }

  /** The frame 30 00: a PUBLISH with no body, whose payload length is -2. */
  lemma MalformedPublishIsFatal(c: string)
    ensures Packets.ReadPacket([0x30, 0]).Panics? && Fatal(Frame(c, [0x30, 0]))
  {
    assert [0x30, 0][1..] == [0];
    OneDigit(0);
  }

  /** A connection closed before its first packet. */
  lemma SilentConnectionIsFatal()
    ensures Fatal(FirstFrame([]))
  {
  }

  /** A fatal packet ends the process even if the reply to it would have had to wait. */
  lemma FatalWithFullQueue(s: State, c: string, filters: seq<string>, qoss: seq<QosByte>, id: nat)
    requires Connected(s, c) && c !in s.intake.replying && |s.clients[c].priority| == s.depth
    requires |filters| == |qoss| && exists f :: f in filters && |Split(f)| >= LEVELS
    ensures Enabled(s, SubscribeTo(c, filters, qoss, id)) && Step(s, SubscribeTo(c, filters, qoss, id)).Crashed?
    ensures Enabled(s, UnsubscribeFrom(c, [], id)) && Step(s, UnsubscribeFrom(c, [], id)).Crashed?
  {
  }
}
