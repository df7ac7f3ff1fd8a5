/** Nothing that is at work ever waits for a step that cannot come. */
module BrokerProgress {
  import opened Qos
  import opened Messages
  import opened SubscriptionIndex
  import opened Session
  import opened Broker
  import opened BrokerSafety
  import opened BrokerRuns
  import Interleaved
  import Retained

  // ---------------------------------------------------------------------------
  // The members of a set, once each, in some order.

  lemma {:induction false} SomeOrder<T>(s: set<T>) returns (order: seq<T>)
    ensures forall x :: x in order <==> x in s
    ensures |order| == |s| && forall i, j :: 0 <= i < j < |order| ==> order[i] != order[j]
  {
    if s == {} {
      order := [];
    } else {
      var x :| x in s;
      var others := SomeOrder(s - {x});
      order := others + [x];
    }
  }

  lemma {:induction false} OrderSize<T>(order: seq<T>, s: set<T>)
    requires forall x :: x in order <==> x in s
    requires forall i, j :: 0 <= i < j < |order| ==> order[i] != order[j]
    ensures |order| == |s|
    decreases |order|
  {
    if order == [] {
      assert s == {};
    } else {
      var n := |order| - 1;
      var before, last := order[..n], order[n];
      assert order == before + [last];
      OrderSize(before, s - {last});
    }
  }

  // ---------------------------------------------------------------------------
  // What can start, and what waits only for room.

  /** Any topic can be published at any time. */
  lemma AnyTopicGoesOut(s: State, topic: string, payload: seq<QosByte>, qos: QosByte) returns (order: seq<string>)
    ensures Enabled(s, Walk(topic, payload, qos, order))
  {
    order := SomeOrder(Chosen(Added(s.history), topic, false));
    assert Members(order) == Chosen(Added(s.history), topic, false);
  }

  /** Any search that was started can take place. */
  lemma SearchGoesOn(s: State, finder: Finder) returns (topics: seq<string>)
    requires finder in s.intake.finders
    ensures Enabled(s, FindRetained(finder.c, finder.filter, finder.qos, topics))
  {
    topics := SomeOrder(Retained.MatchingTopics(s.intake.retained, finder.filter));
  }

  /** A clean connection is possible whenever the client id has none, and a durable one exactly if everything stored
      fits the new channels. */
  lemma ConnectsExactly(s: State, c: string, clean: bool) returns (publishes: seq<Uuid>, pubrels: seq<Uuid>)
    requires !(c in s.clients && s.clients[c].connected)
    ensures Enabled(s, Connect(c, clean, false, publishes, pubrels))
       <==> clean || !HasStores(s, c) || (|IsPublish(s.outbound[c])| <= s.depth && |IsPubrel(s.outbound[c])| <= s.depth)
    ensures forall p, q {:trigger Connect(c, clean, false, p, q)} ::
      Enabled(s, Connect(c, clean, false, p, q)) ==> Enabled(s, Connect(c, clean, false, publishes, pubrels))
  {
    publishes, pubrels := [], [];
    if Resumes(s, c, clean) {
      publishes := SomeOrder(IsPublish(s.outbound[c]));
      pubrels := SomeOrder(IsPubrel(s.outbound[c]));
      forall p, q | Enabled(s, Connect(c, clean, false, p, q))
        ensures |IsPublish(s.outbound[c])| <= s.depth && |IsPubrel(s.outbound[c])| <= s.depth
      {
        OrderSize(p, IsPublish(s.outbound[c]));
        OrderSize(q, IsPubrel(s.outbound[c]));
      }
    }
  }

  /** The first packet in a queue can always be sent, and then there is room for one more. */
  lemma RoomCanBeMade(s: State, c: string)
    requires Inv(s) && s.depth > 0 && c in s.clients && s.clients[c].connected
    ensures |s.clients[c].priority| == s.depth ==>
      Enabled(s, SendControl(c)) && Step(s, SendControl(c)).Running?
      && var s' := Step(s, SendControl(c)).s; c in s'.clients && |s'.clients[c].priority| < s.depth
    ensures |s.clients[c].queue| == s.depth ==>
      Enabled(s, Send(c)) && Step(s, Send(c)).Running?
      && var s' := Step(s, Send(c)).s; c in s'.clients && |s'.clients[c].queue| < s.depth
  {
    assert ClientOk(s, c);
  }

  /** So a reply or a greeting waits only for the client's own sending: with room it gets through. */
  lemma WaitsForRoomOnly(s: State, c: string)
    requires c in s.clients && s.clients[c].connected
    ensures c in s.intake.replying ==> (Enabled(s, Reply(c)) <==> |s.clients[c].priority| < s.depth)
    ensures c in s.work.greetings && s.work.greetings[c].handle == s.clients[c].handle ==>
      (Enabled(s, Greet(c)) <==> |s.clients[c].queue| < s.depth)
  {
  }

  // ---------------------------------------------------------------------------
  // What is at work comes to its end by its own steps alone.

  lemma StepInFront(s: State, e: Event, ss: seq<State>, events: seq<Event>)
    requires IsTrace(ss, events) && Goes(s, e, ss[0])
    ensures IsTrace([s] + ss, [e] + events)
  {
    var ss', events' := [s] + ss, [e] + events;
    forall k: nat | k + 1 < |ss'| ensures StepAt(ss', events', k) {
      if k > 0 { assert StepAt(ss, events, k - 1); }
    }
  }

  predicate OfTask(e: Event, d: nat, c: string)
  {
    e == LookUp(d, c) || e == CheckConnected(d, c) || e == PersistFor(d, c) || e == EnqueueFor(d, c)
  }

  /** The most steps the work for a recipient can still take. */
  function StepsLeft(s: State, d: nat, c: string): nat
  {
    if (d, c) !in s.work.pending then 0
    else
      match PhaseOf(s, d, c)
      case Waiting => 4
      case Found(_) => 3
      case Tested(_, _) => 2
      case Sending(_, _) => 1
      case Missing => 1
  }

  lemma OneStepLess(s: State, e: Event)
    requires AtTask(e) && (e.d, e.c) in s.work.pending && Enabled(s, e)
    ensures Step(s, e) == TaskStep(s, e)
    ensures TaskStep(s, e).Running? ==> StepsLeft(TaskStep(s, e).s, e.d, e.c) < StepsLeft(s, e.d, e.c)
  {
  }

  /** In each state exactly one of its four steps comes next. */
  lemma TaskGoesOn(s: State, d: nat, c: string) returns (e: Event)
    requires (d, c) in s.work.pending
    ensures forall f :: OfTask(f, d, c) ==> (Enabled(s, f) <==> f == e)
    ensures OfTask(e, d, c) && (Step(s, e).Running? ==> StepsLeft(Step(s, e).s, d, c) < StepsLeft(s, d, c))
  {
    match PhaseOf(s, d, c) {
      case Waiting => e := LookUp(d, c);
      case Missing => e := CheckConnected(d, c);
      case Found(_) => e := CheckConnected(d, c);
      case Tested(_, _) => e := PersistFor(d, c);
      case Sending(_, _) => e := EnqueueFor(d, c);
    }
    OneStepLess(s, e);
  }

  /** Four steps of its own at most bring the work for a recipient to its end, unless one of them ends the process. */
  lemma {:induction false} TaskFinishes(s: State, d: nat, c: string) returns (ss: seq<State>, events: seq<Event>)
    ensures IsTrace(ss, events) && ss[0] == s && |events| <= StepsLeft(s, d, c) <= 4
    ensures forall e :: e in events ==> OfTask(e, d, c)
    ensures if |ss| == |events| + 1 then (d, c) !in ss[|ss| - 1].work.pending
            else |ss| == |events| && Enabled(ss[|ss| - 1], events[|ss| - 1]) && Ends(ss[|ss| - 1], events[|ss| - 1])
    decreases StepsLeft(s, d, c)
  {
    if (d, c) !in s.work.pending {
      ss, events := [s], [];
    } else {
      var e := TaskGoesOn(s, d, c);
      if Step(s, e).Crashed? {
        ss, events := [s], [e];
      } else {
        var later, rest := TaskFinishes(Step(s, e).s, d, c);
        StepInFront(s, e, later, rest);
        ss, events := [s] + later, [e] + rest;
      }
    }
  }

  lemma GatherEnabled(s: State, g: nat)
    requires g in s.work.gathering
    ensures Enabled(s, ReadRow(g)) <==> !Enabled(s, Dispatch(g))
    ensures Enabled(s, Dispatch(g)) <==> s.work.gathering[g].todo == []
  {
  }

  /** One row is read, or the list is complete and handed out. */
  lemma GatherGoesOn(s: State, g: nat) returns (e: Event, s': State)
    requires g in s.work.gathering
    ensures Goes(s, e, s')
    ensures if s.work.gathering[g].todo == [] then e == Dispatch(g) && g !in s'.work.gathering
            else e == ReadRow(g) && g in s'.work.gathering
                 && s'.work.gathering[g].todo == s.work.gathering[g].todo[1..]
  {
    GatherEnabled(s, g);
    e := if s.work.gathering[g].todo == [] then Dispatch(g) else ReadRow(g);
    s' := Step(s, e).s;
  }

  lemma OneStep(s: State, e: Event, s': State)
    requires Goes(s, e, s')
    ensures IsTrace([s, s'], [e])
  {
    forall k: nat | k + 1 < 2 ensures StepAt([s, s'], [e], k) {
    }
  }

  /** The rows of a delivery are read one by one, and then its work is handed out. */
  predicate ReadsThenDispatches(events: seq<Event>, g: nat)
  {
    events != [] && events[|events| - 1] == Dispatch(g)
    && forall i :: 0 <= i < |events| - 1 ==> events[i] == ReadRow(g)
  }

  lemma OneMoreRead(events: seq<Event>, g: nat)
    requires ReadsThenDispatches(events, g)
    ensures ReadsThenDispatches([ReadRow(g)] + events, g)
  {
  }

  /** A delivery's own steps bring it to its end from any state, one for each row left and one more. */
  lemma {:induction false} GatherFinishes(s: State, g: nat) returns (ss: seq<State>, events: seq<Event>)
    requires g in s.work.gathering
    ensures IsTrace(ss, events) && ss[0] == s && |ss| == |events| + 1
    ensures |events| == |s.work.gathering[g].todo| + 1 && ReadsThenDispatches(events, g)
    ensures g !in ss[|ss| - 1].work.gathering
    decreases |s.work.gathering[g].todo|
  {
    var e, s' := GatherGoesOn(s, g);
    if s.work.gathering[g].todo == [] {
      OneStep(s, e, s');
      ss, events := [s, s'], [e];
    } else {
      var later, rest := GatherFinishes(s', g);
      StepInFront(s, e, later, rest);
      OneMoreRead(rest, g);
      ss, events := [s] + later, [e] + rest;
    }
  }
}
