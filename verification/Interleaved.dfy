/** DeliverMessage with other goroutines at work: the walk holds the lock, but each later row is
    read without it, so adds and deletes may fall between the reads. */
module Interleaved {
  import opened Qos
  import opened SubscriptionIndex

  // What one DeliverMessage still has to read, what it has gathered, and the table's history so far.
  datatype State = State(history: seq<SubOp>, todo: seq<string>, list: Row)

  // Something else changes the table, or the next row is read.
  datatype Event = Other(ops: seq<SubOp>) | ReadRow

  /** The state right after the locked walk: the selected filters, in whatever order it left them. */
  ghost predicate WalkDone(s: State, topic: string)
  {
    s.list == map[] && Members(s.todo) == Chosen(Added(s.history), topic, false)
  }

  /** The locked part of DeliverMessage leaves such a state, unless it leaves the table. */
  method WalkLocked(subs: SubscriptionMap, topic: string) returns (ok: bool, todo: seq<string>)
    requires subs.Valid()
    ensures ok <==> !LeavesTable(Added(subs.history), topic)
    ensures ok ==> WalkDone(State(subs.history, todo, map[]), topic)
  {
    ok, todo := subs.Walk(topic, false);
    assert ok ==> Members(todo) == Chosen(Added(subs.history), topic, false);
  }

  /** One turn of the unlocked loop reads the row as the table holds it now. */
  method ReadNext(subs: SubscriptionMap, todo: seq<string>, list: Row, messageQos: QosByte) returns (list': Row)
    requires subs.Valid() && todo != []
    ensures State(subs.history, todo[1..], list') == Step(State(subs.history, todo, list), ReadRow, messageQos)
  {
    var row: Row := map[];
    if todo[0] in subs.subMap {
      row := subs.subMap[todo[0]];
    }
    RowAsRead(subs.subMap, Subs(subs.history), todo[0]);
    list' := FoldRow(list, row, messageQos);
  }

  lemma RowAsRead(subMap: map<string, Row>, subs: Subscriptions, f: string)
    requires CellsHold(subMap, subs)
    ensures RowOf(subs, f) == if f in subMap then subMap[f] else map[]
  {
    if f in subMap {
      RowIsRowOf(subMap, subs, f);
    } else {
      forall c ensures c !in RowOf(subs, f) {
        assert CellHolds(subMap, subs, f, c);
      }
    }
  }

  function Step(s: State, e: Event, messageQos: QosByte): State
  {
    match e
    case Other(ops) => s.(history := s.history + ops)
    case ReadRow =>
      if s.todo == [] then s
      else s.(todo := s.todo[1..], list := MergeRow(s.list, RowOf(Subs(s.history), s.todo[0]), messageQos))
  }

  function Run(s: State, events: seq<Event>, messageQos: QosByte): State
    decreases |events|
  {
    if events == [] then s else Run(Step(s, events[0], messageQos), events[1..], messageQos)
  }

  /** The filters read along the run, each with the row it had at that moment. */
  function Reads(s: State, events: seq<Event>, messageQos: QosByte): seq<(string, Row)>
    decreases |events|
  {
    if events == [] then []
    else
      var rest := Reads(Step(s, events[0], messageQos), events[1..], messageQos);
      if events[0].ReadRow? && s.todo != [] then [(s.todo[0], RowOf(Subs(s.history), s.todo[0]))] + rest else rest
  }

  function RowsRead(log: seq<(string, Row)>): set<Row>
  {
    set r | r in log :: r.1
  }

  /** The list gathered so far is always the fold of the rows as they were when read. */
  lemma {:induction false} RunFolds(s: State, events: seq<Event>, messageQos: QosByte, before: set<Row>)
    requires Folds(s.list, before, messageQos)
    ensures Folds(Run(s, events, messageQos).list, before + RowsRead(Reads(s, events, messageQos)), messageQos)
    decreases |events|
  {
    if events == [] {
      assert before + RowsRead([]) == before;
    } else {
      var s' := Step(s, events[0], messageQos);
      var rest := Reads(s', events[1..], messageQos);
      if events[0].ReadRow? && s.todo != [] {
        var row := RowOf(Subs(s.history), s.todo[0]);
        FoldsOneMore(s.list, before, row, messageQos);
        RunFolds(s', events[1..], messageQos, before + {row});
        assert RowsRead([(s.todo[0], row)] + rest) == {row} + RowsRead(rest);
        assert before + {row} + RowsRead(rest) == before + ({row} + RowsRead(rest));
      } else {
        RunFolds(s', events[1..], messageQos, before);
      }
    }
  }

  /** Reads happen in the order of the walk, whatever happens between them. */
  lemma {:induction false} ReadsInOrder(s: State, events: seq<Event>, messageQos: QosByte)
    ensures var log := Reads(s, events, messageQos);
      |log| <= |s.todo| && Run(s, events, messageQos).todo == s.todo[|log|..]
      && forall j :: 0 <= j < |log| ==> log[j].0 == s.todo[j]
    decreases |events|
  {
    if events != [] {
      var s' := Step(s, events[0], messageQos);
      ReadsInOrder(s', events[1..], messageQos);
      if events[0].ReadRow? && s.todo != [] {
        var log, rest := Reads(s, events, messageQos), Reads(s', events[1..], messageQos);
        forall j | 0 <= j < |log| ensures log[j].0 == s.todo[j] {
          if j > 0 { assert log[j] == rest[j - 1] && s.todo[j] == s'.todo[j - 1]; }
        }
      }
    }
  }

  /** Every row read is the row the table had at some moment of the run. */
  lemma {:induction false} ReadsAreMoments(s: State, events: seq<Event>, messageQos: QosByte, r: (string, Row))
    returns (k: nat)
    requires r in Reads(s, events, messageQos)
    ensures k < |events| && events[k].ReadRow?
    ensures var at := Run(s, events[..k], messageQos); at.todo != [] && r == (at.todo[0], RowOf(Subs(at.history), r.0))
    decreases |events|
  {
    var s' := Step(s, events[0], messageQos);
    if events[0].ReadRow? && s.todo != [] && r == (s.todo[0], RowOf(Subs(s.history), s.todo[0])) {
      k := 0;
    } else {
      var j := ReadsAreMoments(s', events[1..], messageQos, r);
      k := j + 1;
      assert events[..k][1..] == events[1..][..j];
    }
  }

  /** c holds filter f, at QoS q or better. */
  predicate Holds(history: seq<SubOp>, c: string, f: string, q: QosByte)
  {
    (c, f) in Subs(history) && q <= Subs(history)[(c, f)]
  }

  /** A client that holds one selected filter at QoS q or better in every state of the run is delivered, at q or
      better or at the message QoS, and no better than that. */
  lemma KeptSubscriberIsDelivered(s: State, topic: string, events: seq<Event>, messageQos: QosByte, c: string,
                                  f: string, q: QosByte)
    requires WalkDone(s, topic) && f in Chosen(Added(s.history), topic, false)
    requires Run(s, events, messageQos).todo == []
    requires forall k {:trigger events[..k]} ::
      0 <= k <= |events| ==> Holds(Run(s, events[..k], messageQos).history, c, f, q)
    ensures var d := Run(s, events, messageQos).list; c in d && d[c] <= messageQos && (d[c] == messageQos || q <= d[c])
  {
    var log := Reads(s, events, messageQos);
    ReadsInOrder(s, events, messageQos);
    assert f in Members(s.todo);
    var j :| 0 <= j < |s.todo| && s.todo[j] == f;
    assert log[j].0 == f;
    var k := ReadsAreMoments(s, events, messageQos, log[j]);
    assert Holds(Run(s, events[..k], messageQos).history, c, f, q);
    FoldsOfNothing(messageQos);
    RunFolds(s, events, messageQos, {});
    var d := Run(s, events, messageQos).list;
    assert Best(d, {} + RowsRead(log), messageQos, c);
    assert log[j].1 in {} + RowsRead(log);
  }

  /** Every client delivered held a selected filter at the moment that filter's row was read, and is delivered at
      the QoS it held or at the message QoS, whichever is lower. */
  lemma DeliveredHeldWhenRead(s: State, topic: string, events: seq<Event>, messageQos: QosByte, c: string)
    returns (k: nat, f: string)
    requires WalkDone(s, topic) && c in Run(s, events, messageQos).list
    ensures k < |events| && events[k].ReadRow? && f in Chosen(Added(s.history), topic, false)
    ensures var at := Run(s, events[..k], messageQos);
      at.todo != [] && at.todo[0] == f && (c, f) in Subs(at.history)
      && var q, held := Run(s, events, messageQos).list[c], Subs(at.history)[(c, f)];
         q <= messageQos && q <= held && (q == messageQos || q == held)
  {
    var log := Reads(s, events, messageQos);
    ReadsInOrder(s, events, messageQos);
    FoldsOfNothing(messageQos);
    RunFolds(s, events, messageQos, {});
    var d := Run(s, events, messageQos).list;
    assert Best(d, {} + RowsRead(log), messageQos, c);
    var row :| row in {} + RowsRead(log) && c in row && d[c] <= row[c] && (d[c] == messageQos || d[c] == row[c]);
    var j :| 0 <= j < |log| && log[j].1 == row;
    f := log[j].0;
    assert f in Members(s.todo);
    k := ReadsAreMoments(s, events, messageQos, log[j]);
  }

  lemma {:induction false} QuietHistory(s: State, events: seq<Event>, messageQos: QosByte)
    requires forall e :: e in events ==> e.ReadRow?
    ensures Run(s, events, messageQos).history == s.history
    decreases |events|
  {
    if events != [] {
      assert events[0] in events;
      QuietHistory(Step(s, events[0], messageQos), events[1..], messageQos);
    }
  }

  /** With nothing between the reads, the run yields the deliver list of the abstract state. */
  lemma QuietRunIsDeliverList(s: State, topic: string, events: seq<Event>, messageQos: QosByte)
    requires WalkDone(s, topic) && Run(s, events, messageQos).todo == []
    requires forall e :: e in events ==> e.ReadRow?
    ensures IsDeliverList(Run(s, events, messageQos).list, Subs(s.history), Chosen(Added(s.history), topic, false),
                          messageQos)
  {
    var log, subs, chosen := Reads(s, events, messageQos), Subs(s.history), Chosen(Added(s.history), topic, false);
    ReadsInOrder(s, events, messageQos);
    forall j | 0 <= j < |log| ensures log[j] == (s.todo[j], RowOf(subs, s.todo[j])) {
      var k := ReadsAreMoments(s, events, messageQos, log[j]);
      QuietHistory(s, events[..k], messageQos);
    }
    forall r ensures r in RowsRead(log) <==> r in RowsOf(subs, chosen) {
      if r in RowsRead(log) {
        var j :| 0 <= j < |log| && log[j].1 == r;
        assert s.todo[j] in Members(s.todo);
      }
      if r in RowsOf(subs, chosen) {
        var f :| f in chosen && r == RowOf(subs, f);
        assert f in Members(s.todo);
        var j :| 0 <= j < |s.todo| && s.todo[j] == f;
        assert log[j].1 == r;
      }
    }
    FoldsOfNothing(messageQos);
    RunFolds(s, events, messageQos, {});
    assert {} + RowsRead(log) == RowsOf(subs, chosen);
    FoldedRowsAreDeliverList(Run(s, events, messageQos).list, subs, chosen, messageQos);
  }
}
