/** The ten-level subscription table, its history, and the level walk that selects filters. */
module SubscriptionIndex {
  import opened Levels
  import opened Qos

  const LEVELS := 10

  // The operations other goroutines perform on the table, each under its lock.
  datatype SubOp =
    | AddOp(client: string, filter: string, qos: QosByte)
    | DeleteOp(client: string, filter: string)
    | DeleteAllOp(client: string)

  type Subscriptions = map<(string, string), QosByte>

  // ---------------------------------------------------------------------------
  // The abstract state: who subscribes to what, and which filters were ever added.

  function Apply(subs: Subscriptions, op: SubOp): Subscriptions
  {
    match op
    case AddOp(c, f, q) => subs[(c, f) := q]
    case DeleteOp(c, f) => subs - {(c, f)}
    case DeleteAllOp(c) => map k | k in subs && k.0 != c :: subs[k]
  }

  function Subs(history: seq<SubOp>): Subscriptions
  {
    if history == [] then map[] else Apply(Subs(history[..|history| - 1]), history[|history| - 1])
  }

  /** The filters ever added; deleting does not forget them. */
  function Added(history: seq<SubOp>): set<string>
  {
    if history == [] then {}
    else
      var before, op := Added(history[..|history| - 1]), history[|history| - 1];
      if op.AddOp? then before + {op.filter} else before
  }

  lemma {:induction false} AddedMeaning(history: seq<SubOp>, f: string)
    ensures f in Added(history) <==> exists k :: 0 <= k < |history| && history[k].AddOp? && history[k].filter == f
  {
    if history != [] {
      var n := |history| - 1;
      AddedMeaning(history[..n], f);
      assert forall k :: 0 <= k < n ==> history[..n][k] == history[k];
    }
  }

  predicate Touches(op: SubOp, client: string, filter: string)
  {
    op.client == client && (op.DeleteAllOp? || op.filter == filter)
  }

  /** A subscription is held exactly when the last operation that touched it added it, at that QoS. */
  lemma {:induction false} SubsMeaning(history: seq<SubOp>, c: string, f: string, q: QosByte)
    ensures ((c, f) in Subs(history) && Subs(history)[(c, f)] == q)
       <==> exists k :: 0 <= k < |history| && history[k] == AddOp(c, f, q)
                     && forall j :: k < j < |history| ==> !Touches(history[j], c, f)
  {
    if history != [] {
      var n := |history| - 1;
      var before, last := history[..n], history[n];
      SubsMeaning(before, c, f, q);
      if Touches(last, c, f) {
        assert Touches(history[n], c, f);
      } else {
        assert forall k :: 0 <= k < n ==> before[k] == history[k];
      }
    }
  }

  lemma SubscribedWasAdded(history: seq<SubOp>, c: string, f: string)
    requires (c, f) in Subs(history)
    ensures f in Added(history)
  {
    var q := Subs(history)[(c, f)];
    SubsMeaning(history, c, f, q);
    AddedMeaning(history, f);
  }

  /** The row of filter f: its current clients. */
  function RowOf(subs: Subscriptions, f: string): Row
  {
    map k | k in subs && k.1 == f :: k.0 := subs[k]
  }

  /** The nested table and the flat abstract state agree on filter f and client c. */
  ghost predicate CellHolds(subMap: map<string, Row>, subs: Subscriptions, f: string, c: string)
  {
    if (c, f) in subs then f in subMap && c in subMap[f] && subMap[f][c] == subs[(c, f)]
    else f in subMap ==> c !in subMap[f]
  }

  ghost predicate CellsHold(subMap: map<string, Row>, subs: Subscriptions)
  {
    forall f, c {:trigger CellHolds(subMap, subs, f, c)} :: CellHolds(subMap, subs, f, c)
  }

  // ---------------------------------------------------------------------------
  // What a level walk selects, one filter at a time.

  /** The elements a filter or topic is walked by: its levels, then the sentinel. */
  function Rows(filter: string): seq<string>
  {
    Split(filter) + [NUL]
  }

  /** Filter element number k survives topic element x: below the first level only the sentinel survives
      the sentinel. */
  predicate Passes(k: nat, element: string, x: string)
  {
    element == x || (element == PLUS && (k == 0 || x != NUL))
  }

  ghost predicate LiveAfter(rows: seq<string>, xs: seq<string>, i: nat)
  {
    i <= |rows| && i <= |xs| && forall j :: 0 <= j < i ==> Passes(j, rows[j], xs[j])
  }

  /** Filter element number k counts as "#" for topic element x. The first level does not look at x;
      further down a topic level "#" is a level like any other, and the source does not look for "#" at
      the sentinel. parentHash says whether the walk does. */
  predicate CountsAsHash(k: nat, element: string, x: string, parentHash: bool)
  {
    element == HASH && (k == 0 || (x != HASH && (x != NUL || parentHash)))
  }

  /** The walk meets the filter's "#" at level k. */
  ghost predicate HashedAt(rows: seq<string>, xs: seq<string>, k: nat, parentHash: bool)
  {
    k < |rows| && k < |xs| && LiveAfter(rows, xs, k) && CountsAsHash(k, rows[k], xs[k], parentHash)
  }

  ghost predicate HashedBefore(rows: seq<string>, xs: seq<string>, i: nat, parentHash: bool)
  {
    exists k :: 0 <= k < i && HashedAt(rows, xs, k, parentHash)
  }

  ghost predicate Selected(rows: seq<string>, xs: seq<string>, parentHash: bool)
  {
    LiveAfter(rows, xs, |xs|) || HashedBefore(rows, xs, |xs|, parentHash)
  }

  /** The filter's first "#" stands directly below the topic's last level, as in "a/#" against "a". */
  predicate HashJustBelow(filter: string, topic: string)
  {
    var route, n := Split(filter), |Split(topic)|;
    n < |route| && route[n] == HASH && HASH !in route[..n]
  }

  lemma LiveIsAgree(filter: string, topic: string, i: nat)
    requires NUL !in Split(filter) && PlainTopic(topic) && i <= |Split(topic)|
    ensures LiveAfter(Rows(filter), Rows(topic), i) <==> AgreeTo(Split(filter), Split(topic), i)
  {
    var route, levels := Split(filter), Split(topic);
    var rows, xs := Rows(filter), Rows(topic);
    if LiveAfter(rows, xs, i) {
      forall j | 0 <= j < i
        ensures j < |route| && route[j] != HASH && (route[j] == PLUS || route[j] == levels[j])
      {
        assert Passes(j, rows[j], xs[j]);
        assert xs[j] == levels[j] && levels[j] in levels;
      }
      if i > 0 {
        var j := i - 1;
        assert Passes(j, rows[j], xs[j]) && xs[j] == levels[j] && levels[j] in levels;
        assert j < |route|;
      }
    }
    if AgreeTo(route, levels, i) {
      forall j | 0 <= j < i ensures Passes(j, rows[j], xs[j]) {
        assert levels[j] in levels;
      }
    }
  }

  lemma HashedIsHashAt(filter: string, topic: string, k: nat, parentHash: bool)
    requires NUL !in Split(filter) && PlainTopic(topic) && k <= |Split(topic)|
    ensures HashedAt(Rows(filter), Rows(topic), k, parentHash)
       <==> HashAt(Split(filter), Split(topic), k) && (k < |Split(topic)| || parentHash)
  {
    LiveIsAgree(filter, topic, k);
    if k < |Split(topic)| {
      assert Rows(topic)[k] in Split(topic);
    }
  }

  /** With the sentinel check the walk selects exactly what Match accepts. */
  lemma RepairedSelectionIsMatch(filter: string, topic: string)
    requires NUL !in Split(filter) && PlainTopic(topic)
    ensures Selected(Rows(filter), Rows(topic), true) <==> Match(Split(filter), Split(topic))
  {
    var route, levels := Split(filter), Split(topic);
    var rows, xs := Rows(filter), Rows(topic);
    var n := |levels|;
    MatchMeaning(route, levels);
    LiveIsAgree(filter, topic, n);
    forall k: nat | k <= n ensures HashedAt(rows, xs, k, true) <==> HashAt(route, levels, k) {
      HashedIsHashAt(filter, topic, k, true);
    }
    if LiveAfter(rows, xs, n + 1) {
      assert Passes(n, rows[n], xs[n]);
      assert rows[n] in route || |route| == n;
    }
    if |route| == n && AgreeTo(route, levels, n) {
      assert LiveAfter(rows, xs, n + 1);
    }
  }

  /** As written, the walk selects what Match accepts, less the filters whose "#" stands directly
      below the topic. */
  lemma SelectionIsMatchButParent(filter: string, topic: string)
    requires NUL !in Split(filter) && PlainTopic(topic)
    ensures Selected(Rows(filter), Rows(topic), false)
       <==> Match(Split(filter), Split(topic)) && !HashJustBelow(filter, topic)
    ensures HashJustBelow(filter, topic) ==> !Selected(Rows(filter), Rows(topic), false)
  {
    var route, levels := Split(filter), Split(topic);
    var rows, xs := Rows(filter), Rows(topic);
    var n := |levels|;
    RepairedSelectionIsMatch(filter, topic);
    forall k: nat | k <= n
      ensures HashedAt(rows, xs, k, true) <==> HashAt(route, levels, k)
      ensures HashedAt(rows, xs, k, false) <==> HashAt(route, levels, k) && k < n
    {
      HashedIsHashAt(filter, topic, k, true);
      HashedIsHashAt(filter, topic, k, false);
    }
    if HashJustBelow(filter, topic) {
      assert !Passes(n, rows[n], xs[n]);
      forall k: nat | k < n ensures !HashAt(route, levels, k) {
        assert route[..n][k] == route[k];
      }
    } else {
      assert !HashAt(route, levels, n);
    }
  }

  /** The exception is real: the standard lets "a/#" select "a" (section 4.7.1.2), Match does, the walk does not. */
  lemma ParentIsMissed()
    ensures Match(Split("a/#"), Split("a")) && !Selected(Rows("a/#"), Rows("a"), false)
  {
    SplitJoin(["a"]);
    SplitJoin(["a", "#"]);
    assert Join(["a", "#"]) == "a" + "/" + "#" == "a/#";
    SelectionIsMatchButParent("a/#", "a");
  }

  ghost function Chosen(added: set<string>, topic: string, parentHash: bool): set<string>
  {
    set f | f in added && Selected(Rows(f), Rows(topic), parentHash)
  }

  // ---------------------------------------------------------------------------
  // The specification of a deliver list, from the abstract state alone.

  ghost predicate DeliversTo(d: Row, subs: Subscriptions, chosen: set<string>, messageQos: QosByte, c: string)
  {
    if c in d then
      d[c] <= messageQos
      && (exists f :: f in chosen && (c, f) in subs && d[c] <= subs[(c, f)]
                      && (d[c] == messageQos || d[c] == subs[(c, f)]))
      && (forall f :: f in chosen && (c, f) in subs ==> d[c] == messageQos || subs[(c, f)] <= d[c])
    else
      forall f :: f in chosen ==> (c, f) !in subs
  }

  /** Each client holding a chosen filter, once, at the message QoS or at the best QoS it holds on a chosen
      filter, whichever is lower. */
  ghost predicate IsDeliverList(d: Row, subs: Subscriptions, chosen: set<string>, messageQos: QosByte)
  {
    forall c {:trigger DeliversTo(d, subs, chosen, messageQos, c)} :: DeliversTo(d, subs, chosen, messageQos, c)
  }

  lemma DeliverListUnique(d: Row, e: Row, subs: Subscriptions, chosen: set<string>, messageQos: QosByte)
    requires IsDeliverList(d, subs, chosen, messageQos) && IsDeliverList(e, subs, chosen, messageQos)
    ensures d == e
  {
    forall c ensures (c in d <==> c in e) && (c in d ==> d[c] == e[c]) {
      assert DeliversTo(d, subs, chosen, messageQos, c) && DeliversTo(e, subs, chosen, messageQos, c);
    }
  }

  function RowsOf(subs: Subscriptions, filters: set<string>): set<Row>
  {
    set f | f in filters :: RowOf(subs, f)
  }

  /** Folding the rows of the chosen filters, read at one moment, gives the deliver list. */
  lemma FoldedRowsAreDeliverList(d: Row, subs: Subscriptions, chosen: set<string>, messageQos: QosByte)
    requires Folds(d, RowsOf(subs, chosen), messageQos)
    ensures IsDeliverList(d, subs, chosen, messageQos)
  {
    var rows := RowsOf(subs, chosen);
    forall c ensures DeliversTo(d, subs, chosen, messageQos, c) {
      assert Best(d, rows, messageQos, c);
      forall f | f in chosen && (c, f) in subs
        ensures c in d && (d[c] == messageQos || subs[(c, f)] <= d[c])
      {
        assert RowOf(subs, f) in rows && c in RowOf(subs, f);
      }
      if c in d {
        var r :| r in rows && c in r && d[c] <= r[c] && (d[c] == messageQos || d[c] == r[c]);
        var f :| f in chosen && r == RowOf(subs, f);
      }
    }
  }

  /** For NUL-free filters the chosen ones are those the matcher accepts, less the parent "#" case. */
  lemma ChosenByMatch(added: set<string>, topic: string)
    requires PlainTopic(topic) && forall f :: f in added ==> NUL !in Split(f)
    ensures Chosen(added, topic, false)
         == set f | f in added && Match(Split(f), Split(topic)) && !HashJustBelow(f, topic)
    ensures Chosen(added, topic, true) == set f | f in added && Match(Split(f), Split(topic))
  {
    forall f | f in added
      ensures Selected(Rows(f), Rows(topic), false) <==> Match(Split(f), Split(topic)) && !HashJustBelow(f, topic)
      ensures Selected(Rows(f), Rows(topic), true) <==> Match(Split(f), Split(topic))
    {
      SelectionIsMatchButParent(f, topic);
      RepairedSelectionIsMatch(f, topic);
    }
  }

  /** Client c holds filter f and the matcher accepts the topic; parentHash says whether "a/#" also counts for "a". */
  predicate Receives(history: seq<SubOp>, topic: string, parentHash: bool, c: string, f: string)
  {
    (c, f) in Subs(history) && Match(Split(f), Split(topic)) && (parentHash || !HashJustBelow(f, topic))
  }

  /** What a deliver list means, from the history and the matcher alone: each client with an accepting filter;
      no more than the message QoS, no more than it holds on some accepting filter, as much as one of these, and
      no less than it holds on any accepting filter unless it is the message QoS. */
  lemma DeliverListMeaning(d: Row, history: seq<SubOp>, topic: string, messageQos: QosByte, parentHash: bool, c: string)
    requires PlainTopic(topic) && forall f :: f in Added(history) ==> NUL !in Split(f)
    requires IsDeliverList(d, Subs(history), Chosen(Added(history), topic, parentHash), messageQos)
    ensures c in d <==> exists f :: Receives(history, topic, parentHash, c, f)
    ensures c in d ==> d[c] <= messageQos
    ensures c in d ==> exists f ::
      Receives(history, topic, parentHash, c, f) && d[c] <= Subs(history)[(c, f)]
      && (d[c] == messageQos || d[c] == Subs(history)[(c, f)])
    ensures c in d ==> forall f ::
      Receives(history, topic, parentHash, c, f) ==> d[c] == messageQos || Subs(history)[(c, f)] <= d[c]
  {
    var chosen := Chosen(Added(history), topic, parentHash);
    ChosenByMatch(Added(history), topic);
    forall f ensures Receives(history, topic, parentHash, c, f) <==> f in chosen && (c, f) in Subs(history) {
      if (c, f) in Subs(history) {
        SubscribedWasAdded(history, c, f);
      }
    }
    assert DeliversTo(d, Subs(history), chosen, messageQos, c);
  }

  predicate NoDup<T(==)>(s: seq<T>)
  {
    forall i, j :: 0 <= i < j < |s| ==> s[i] != s[j]
  }

  function Members(s: seq<string>): set<string> { set f | f in s }

  lemma MembersOneMore(s: seq<string>, i: nat)
    requires i < |s|
    ensures Members(s[..i + 1]) == Members(s[..i]) + {s[i]}
  {
    assert s[..i + 1] == s[..i] + [s[i]];
  }

  // ---------------------------------------------------------------------------
  // The table.

  type Level = map<string, set<string>>

  function At(bitmap: seq<Level>, i: nat, element: string): set<string>
    requires i < |bitmap|
  {
    if element in bitmap[i] then bitmap[i][element] else {}
  }

  /** Level l lists filter f under element e exactly when f's l-th element is e and f was added;
      the filter being added is recorded in the levels before i only. */
  ghost predicate Listed(bitmap: seq<Level>, added: set<string>, adding: string, i: nat, l: nat, e: string, f: string)
    requires l < |bitmap|
  {
    f in At(bitmap, l, e) <==> (f in added || (f == adding && l < i)) && l < |Rows(f)| && Rows(f)[l] == e
  }

  ghost predicate TableWith(bitmap: seq<Level>, added: set<string>, adding: string, i: nat)
  {
    |bitmap| == LEVELS
    && forall l: nat, e, f {:trigger Listed(bitmap, added, adding, i, l, e, f)} | l < LEVELS ::
         Listed(bitmap, added, adding, i, l, e, f)
  }

  ghost predicate TableHolds(bitmap: seq<Level>, added: set<string>)
  {
    TableWith(bitmap, added, "", 0)
  }

  lemma EmptyTable()
    ensures TableHolds(seq(LEVELS, _ => map[]), {})
  {
    var bitmap: seq<Level> := seq(LEVELS, _ => map[]);
    forall l: nat, e, f | l < LEVELS ensures Listed(bitmap, {}, "", 0, l, e, f) {
    }
  }

  lemma StartAdding(bitmap: seq<Level>, added: set<string>, adding: string)
    requires TableHolds(bitmap, added)
    ensures TableWith(bitmap, added, adding, 0)
  {
    forall l: nat, e, f | l < LEVELS ensures Listed(bitmap, added, adding, 0, l, e, f) {
      assert Listed(bitmap, added, "", 0, l, e, f);
    }
  }

  lemma AddOneMore(was: seq<Level>, now: seq<Level>, added: set<string>, adding: string, i: nat)
    requires TableWith(was, added, adding, i) && i < LEVELS && i < |Rows(adding)|
    requires now == was[i := was[i][Rows(adding)[i] := At(was, i, Rows(adding)[i]) + {adding}]]
    ensures TableWith(now, added, adding, i + 1)
  {
    var next := i + 1;
    forall l: nat, e, f | l < LEVELS ensures Listed(now, added, adding, next, l, e, f) {
      assert Listed(was, added, adding, i, l, e, f);
    }
  }

  lemma DoneAdding(bitmap: seq<Level>, added: set<string>, adding: string)
    requires TableWith(bitmap, added, adding, |Rows(adding)|)
    ensures TableHolds(bitmap, added + {adding})
  {
    forall l: nat, e, f | l < LEVELS ensures Listed(bitmap, added + {adding}, "", 0, l, e, f) {
      assert Listed(bitmap, added, adding, |Rows(adding)|, l, e, f);
    }
  }

  /** Appends the members of a set in an arbitrary order, as ranging over a Go map does. */
  method AppendAll(list: seq<string>, s: set<string>) returns (r: seq<string>)
    ensures NoDup(list) && (forall f :: f in list ==> f !in s) ==> NoDup(r)
    ensures forall f :: f in r <==> f in list || f in s
  {
    r := list;
    var todo := s;
    while todo != {}
      invariant todo <= s && (NoDup(list) && (forall f :: f in list ==> f !in s) ==> NoDup(r))
      invariant forall f :: f in r <==> f in list || (f in s && f !in todo)
      decreases |todo|
    {
      var f :| f in todo;
      r := r + [f];
      todo := todo - {f};
    }
  }

  // ---------------------------------------------------------------------------
  // The walk's working lists.

  ghost predicate IsLive(matches: seq<string>, added: set<string>, xs: seq<string>, i: nat, f: string)
  {
    f in matches <==> f in added && LiveAfter(Rows(f), xs, i)
  }

  /** The walk lists a filter twice only where the topic starts with a wildcard level, which the standard
      does not allow. */
  predicate ListsOnce(xs: seq<string>)
  {
    xs != [] && xs[0] != PLUS && xs[0] != HASH
  }

  /** matches holds the added filters that survived the first i levels. */
  ghost predicate LiveList(matches: seq<string>, added: set<string>, xs: seq<string>, i: nat)
  {
    (ListsOnce(xs) ==> NoDup(matches))
    && forall f {:trigger IsLive(matches, added, xs, i, f)} :: IsLive(matches, added, xs, i, f)
  }

  ghost predicate IsHashed(hashMatches: seq<string>, added: set<string>, xs: seq<string>, i: nat, parentHash: bool,
                           f: string)
  {
    f in hashMatches <==> f in added && HashedBefore(Rows(f), xs, i, parentHash)
  }

  /** hashMatches holds the added filters decided by a "#" in the first i levels. */
  ghost predicate HashedList(hashMatches: seq<string>, added: set<string>, xs: seq<string>, i: nat, parentHash: bool)
  {
    (ListsOnce(xs) ==> NoDup(hashMatches))
    && forall f {:trigger IsHashed(hashMatches, added, xs, i, parentHash, f)} ::
      IsHashed(hashMatches, added, xs, i, parentHash, f)
  }

  ghost predicate StaysLive(rows: seq<string>, i: nat, element: string)
  {
    i < |rows| && Passes(i, rows[i], element)
  }

  ghost predicate TurnsHashed(rows: seq<string>, i: nat, element: string, parentHash: bool)
  {
    i < |rows| && CountsAsHash(i, rows[i], element, parentHash)
  }

  /** NextLevel's loop at filter f, when the filters in seen have been looked at. */
  ghost predicate Sorted(live: seq<string>, hashed: seq<string>, hashMatches: seq<string>, seen: seq<string>,
                         i: nat, element: string, parentHash: bool, f: string)
  {
    (f in live <==> f in seen && StaysLive(Rows(f), i, element))
    && (f in hashed <==> f in hashMatches || (f in seen && TurnsHashed(Rows(f), i, element, parentHash)))
  }

  lemma NextLevelMeaning(rows: seq<string>, xs: seq<string>, i: nat, parentHash: bool)
    requires i < |xs|
    ensures LiveAfter(rows, xs, i + 1) <==> LiveAfter(rows, xs, i) && StaysLive(rows, i, xs[i])
    ensures HashedBefore(rows, xs, i + 1, parentHash)
       <==> HashedBefore(rows, xs, i, parentHash) || (LiveAfter(rows, xs, i) && TurnsHashed(rows, i, xs[i], parentHash))
  {
    assert HashedAt(rows, xs, i, parentHash) <==> LiveAfter(rows, xs, i) && TurnsHashed(rows, i, xs[i], parentHash);
  }

  /** A filter is decided at one level only: once decided by "#" it is no longer live. */
  lemma HashedIsNotLive(rows: seq<string>, xs: seq<string>, i: nat, parentHash: bool)
    requires ListsOnce(xs) && HashedBefore(rows, xs, i, parentHash)
    ensures !LiveAfter(rows, xs, i)
  {
  }

  lemma DecidedOnce(matches: seq<string>, hashMatches: seq<string>, added: set<string>, xs: seq<string>, i: nat,
                    parentHash: bool, f: string)
    requires LiveList(matches, added, xs, i) && HashedList(hashMatches, added, xs, i, parentHash)
    requires f in matches
    ensures f in added && (ListsOnce(xs) ==> f !in hashMatches)
  {
    assert IsLive(matches, added, xs, i, f) && IsHashed(hashMatches, added, xs, i, parentHash, f);
    if ListsOnce(xs) && HashedBefore(Rows(f), xs, i, parentHash) {
      HashedIsNotLive(Rows(f), xs, i, parentHash);
    }
  }

  /** The walk of a longer topic still has a live filter after the tenth level, and indexes level 10. */
  ghost predicate LeavesTable(added: set<string>, topic: string)
  {
    |Rows(topic)| > LEVELS && exists f :: f in added && LiveAfter(Rows(f), Rows(topic), LEVELS)
  }

  /** Stored filters have at most nine levels, so that takes a topic whose tenth level is the sentinel
      character, which the standard does not allow, and a filter that agrees with all nine before it. */
  lemma LeavesTableExactly(added: set<string>, topic: string)
    requires forall f :: f in added ==> |Split(f)| <= 9
    ensures LeavesTable(added, topic)
       <==> |Split(topic)| >= 10 && Split(topic)[9] == "\0"
            && exists f :: f in added && |Split(f)| == 9 && LiveAfter(Rows(f), Rows(topic), 9)
  {
    var xs, last := Rows(topic), LEVELS - 1;
    forall f | f in added && |xs| > LEVELS
      ensures LiveAfter(Rows(f), xs, LEVELS) <==> |Split(f)| == last && LiveAfter(Rows(f), xs, last) && xs[last] == NUL
    {
      if LiveAfter(Rows(f), xs, LEVELS) {
        assert Passes(last, Rows(f)[last], xs[last]);
        assert LiveAfter(Rows(f), xs, last);
      }
    }
  }

  /** So no topic that the standard allows leaves the table, however many levels it has. */
  lemma PlainTopicStays(added: set<string>, topic: string)
    requires PlainTopic(topic) && forall f :: f in added ==> |Split(f)| <= 9
    ensures !LeavesTable(added, topic)
  {
    LeavesTableExactly(added, topic);
  }

  /** But every filter of nine levels has topics that do. */
  lemma NineLevelsLeave(added: set<string>, f: string, topic: string)
    requires f in added && |Split(f)| == 9 && Split(topic) == Split(f) + ["\0"]
    ensures LeavesTable(added, topic)
  {
    forall j | 0 <= j < LEVELS ensures Passes(j, Rows(f)[j], Rows(topic)[j]) {
      assert Rows(topic)[j] == Rows(f)[j];
    }
    assert LiveAfter(Rows(f), Rows(topic), LEVELS);
  }

  lemma WalkIsDone(matches: seq<string>, hashMatches: seq<string>, added: set<string>, topic: string, i: nat,
                   parentHash: bool)
    requires 0 < i <= |Rows(topic)| && (i == |Rows(topic)| || matches == [])
    requires LiveList(matches, added, Rows(topic), i) && HashedList(hashMatches, added, Rows(topic), i, parentHash)
    ensures ListsOnce(Rows(topic)) ==> NoDup(hashMatches + matches)
    ensures forall f :: f in hashMatches + matches <==> f in Chosen(added, topic, parentHash)
  {
    var xs := Rows(topic);
    var all := hashMatches + matches;
    forall f ensures f in all <==> f in Chosen(added, topic, parentHash) {
      assert IsLive(matches, added, xs, i, f) && IsHashed(hashMatches, added, xs, i, parentHash, f);
      if i < |xs| && f in added {
        assert !LiveAfter(Rows(f), xs, i);
        assert forall k :: i <= k <= |xs| ==> !LiveAfter(Rows(f), xs, k);
      }
    }
    forall j, k | ListsOnce(xs) && 0 <= j < k < |all| ensures all[j] != all[k] {
      if j < |hashMatches| <= k {
        DecidedOnce(matches, hashMatches, added, xs, i, parentHash, all[k]);
      }
    }
  }

  lemma StaysInTable(matches: seq<string>, added: set<string>, topic: string, i: nat)
    requires 0 < i <= |Rows(topic)| && i <= LEVELS && (i == |Rows(topic)| || matches == [])
    requires LiveList(matches, added, Rows(topic), i)
    ensures !LeavesTable(added, topic)
  {
    forall f | f in added && |Rows(topic)| > LEVELS ensures !LiveAfter(Rows(f), Rows(topic), LEVELS) {
      assert IsLive(matches, added, Rows(topic), i, f);
      assert !LiveAfter(Rows(f), Rows(topic), i);
    }
  }

  class SubscriptionMap {
    var subElements: map<string, seq<string>>
    var subMap: map<string, Row>
    var subBitmap: seq<Level>
    ghost var history: seq<SubOp>

    ghost predicate Valid()
      reads this
    {
      TableHolds(subBitmap, Added(history))
      && subMap.Keys == subElements.Keys == Added(history)
      && ElementsHold(subElements)
      && CellsHold(subMap, Subs(history))
    }

    constructor ()
      ensures Valid() && history == []
    {
      subElements := map[];
      subMap := map[];
      subBitmap := seq(LEVELS, _ => map[]);
      history := [];
      new;
      EmptyTable();
      forall f, c ensures CellHolds(subMap, Subs(history), f, c) {
      }
    }

    /** ok is false when the source indexes level 10 of its ten-level table, which ends the process. */
    method AddSub(client: string, subscription: string, qos: QosByte) returns (ok: bool)
      requires Valid()
      modifies this
      ensures ok <==> |Split(subscription)| <= 9
      ensures ok ==> Valid() && history == old(history) + [AddOp(client, subscription, qos)]
    {
      assert ElementHolds(subElements, subscription);
      if subscription !in subElements {
        subElements := subElements[subscription := Split(subscription)];
      }
      if subscription !in subMap {
        subMap := subMap[subscription := map[]];
      }
      var row: Row := subMap[subscription][client := qos];
      subMap := subMap[subscription := row];
      CellAdded(old(subMap), subMap, Subs(history), client, subscription, qos);
      if |Split(subscription)| < LEVELS { ElementAdded(old(subElements), subscription); }
      assert subElements == old(subElements)[subscription := Split(subscription)];
      assert subMap.Keys == subElements.Keys == Added(history) + {subscription};
      ok := RecordLevels(subscription, subElements[subscription] + [NUL]);
      history := history + [AddOp(client, subscription, qos)];
      HistoryGrows(old(history), AddOp(client, subscription, qos));
    }

    /** AddSub's loop over the levels of the filter. */
    method RecordLevels(subscription: string, rows: seq<string>) returns (ok: bool)
      requires TableHolds(subBitmap, Added(history)) && rows == Rows(subscription)
      modifies `subBitmap
      ensures ok <==> |rows| <= LEVELS
      ensures ok ==> TableHolds(subBitmap, Added(history) + {subscription})
    {
      StartAdding(subBitmap, Added(history), subscription);
      var i := 0;
      while i < |rows|
        invariant 0 <= i <= |rows| && i <= LEVELS
        invariant TableWith(subBitmap, Added(history), subscription, i)
      {
        if i >= |subBitmap| {
          return false;
        }
        var element := rows[i];
        ghost var was := subBitmap;
        var members := At(subBitmap, i, element) + {subscription};
        subBitmap := subBitmap[i := subBitmap[i][element := members]];
        AddOneMore(was, subBitmap, Added(history), subscription, i);
        i := i + 1;
      }
      DoneAdding(subBitmap, Added(history), subscription);
      ok := true;
    }

    method DeleteSub(client: string, subscription: string)
      requires Valid()
      modifies this
      ensures Valid() && history == old(history) + [DeleteOp(client, subscription)]
    {
      if subscription in subMap {
        subMap := subMap[subscription := subMap[subscription] - {client}];
      }
      history := history + [DeleteOp(client, subscription)];
      HistoryGrows(old(history), DeleteOp(client, subscription));
      forall f, c ensures CellHolds(subMap, Subs(history), f, c) {
        assert CellHolds(old(subMap), Subs(old(history)), f, c);
      }
    }

    method DeleteSubAll(client: string)
      requires Valid()
      modifies this
      ensures Valid() && history == old(history) + [DeleteAllOp(client)]
    {
      var todo := subMap.Keys;
      while todo != {}
        invariant forall f :: f in todo ==> f in subMap
        invariant forall f {:trigger RemovedFrom(old(subMap), subMap, todo, client, f)} ::
          RemovedFrom(old(subMap), subMap, todo, client, f)
        modifies `subMap
        decreases |todo|
      {
        var f :| f in todo;
        ghost var was := subMap;
        assert RemovedFrom(old(subMap), was, todo, client, f);
        if client in subMap[f] {
          subMap := subMap[f := subMap[f] - {client}];
        }
        ghost var left := todo - {f};
        forall g ensures RemovedFrom(old(subMap), subMap, left, client, g) {
          assert RemovedFrom(old(subMap), was, todo, client, g);
        }
        todo := todo - {f};
      }
      history := history + [DeleteAllOp(client)];
      HistoryGrows(old(history), DeleteAllOp(client));
      AllRemoved(old(subMap), subMap, Subs(old(history)), client);
    }

    /** One level of the walk below the first: every live filter stays, turns into a "#" match, or drops out. */
    method NextLevel(i: nat, element: string, matches: seq<string>, hashMatches: seq<string>, parentHash: bool,
                     ghost xs: seq<string>)
      returns (live: seq<string>, hashed: seq<string>)
      requires TableHolds(subBitmap, Added(history)) && 0 < i < |xs| && i < LEVELS
      requires xs[i] == element
      requires LiveList(matches, Added(history), xs, i) && HashedList(hashMatches, Added(history), xs, i, parentHash)
      ensures LiveList(live, Added(history), xs, i + 1) && HashedList(hashed, Added(history), xs, i + 1, parentHash)
    {
      live, hashed := [], hashMatches;
      var j := 0;
      while j < |matches|
        invariant 0 <= j <= |matches| && (ListsOnce(xs) ==> NoDup(live) && NoDup(hashed))
        invariant forall f {:trigger Sorted(live, hashed, hashMatches, matches[..j], i, element, parentHash, f)} ::
          Sorted(live, hashed, hashMatches, matches[..j], i, element, parentHash, f)
      {
        var sub := matches[j];
        ghost var live0, hashed0, seen, seen' := live, hashed, matches[..j], matches[..j + 1];
        assert seen' == seen + [sub] && (ListsOnce(xs) ==> sub !in seen);
        assert Sorted(live, hashed, hashMatches, seen, i, element, parentHash, sub);
        DecidedOnce(matches, hashMatches, Added(history), xs, i, parentHash, sub);
        assert Listed(subBitmap, Added(history), "", 0, i, element, sub);
        assert Listed(subBitmap, Added(history), "", 0, i, PLUS, sub);
        assert Listed(subBitmap, Added(history), "", 0, i, HASH, sub);
        if element == NUL {
          if sub in At(subBitmap, i, element) {
            live := live + [sub];
          } else if parentHash && sub in At(subBitmap, i, HASH) {
            hashed := hashed + [sub];
          }
        } else if sub in At(subBitmap, i, element) || sub in At(subBitmap, i, PLUS) {
          live := live + [sub];
        } else if sub in At(subBitmap, i, HASH) {
          hashed := hashed + [sub];
        }
        forall f ensures Sorted(live, hashed, hashMatches, seen', i, element, parentHash, f) {
          assert Sorted(live0, hashed0, hashMatches, seen, i, element, parentHash, f);
        }
        j := j + 1;
      }
      assert matches[..j] == matches;
      ghost var next := i + 1;
      forall f
        ensures IsLive(live, Added(history), xs, next, f)
        ensures IsHashed(hashed, Added(history), xs, next, parentHash, f)
      {
        assert Sorted(live, hashed, hashMatches, matches, i, element, parentHash, f);
        assert IsLive(matches, Added(history), xs, i, f);
        assert IsHashed(hashMatches, Added(history), xs, i, parentHash, f);
        NextLevelMeaning(Rows(f), xs, i, parentHash);
      }
    }

    /** The first level: three rows of the table are copied out. */
    method FirstLevel(element: string, parentHash: bool, ghost xs: seq<string>)
      returns (live: seq<string>, hashed: seq<string>)
      requires TableHolds(subBitmap, Added(history)) && 0 < |xs|
      requires xs[0] == element
      ensures LiveList(live, Added(history), xs, 1) && HashedList(hashed, Added(history), xs, 1, parentHash)
    {
      live := AppendAll([], At(subBitmap, 0, element));
      forall f | ListsOnce(xs) && f in live ensures f !in At(subBitmap, 0, PLUS) {
        assert Listed(subBitmap, Added(history), "", 0, 0, element, f);
        assert Listed(subBitmap, Added(history), "", 0, 0, PLUS, f);
      }
      live := AppendAll(live, At(subBitmap, 0, PLUS));
      hashed := AppendAll([], At(subBitmap, 0, HASH));
      forall f
        ensures IsLive(live, Added(history), xs, 1, f)
        ensures IsHashed(hashed, Added(history), xs, 1, parentHash, f)
      {
        assert Listed(subBitmap, Added(history), "", 0, 0, element, f);
        assert Listed(subBitmap, Added(history), "", 0, 0, PLUS, f);
        assert Listed(subBitmap, Added(history), "", 0, 0, HASH, f);
        NextLevelMeaning(Rows(f), xs, 0, parentHash);
      }
    }

    /** The level walk of DeliverMessage, for any topic. With parentHash false it is the source's; with
        parentHash true it also looks for "#" at the sentinel. ok is false when it leaves the table. */
    method Walk(topic: string, parentHash: bool) returns (ok: bool, selected: seq<string>)
      requires Valid()
      ensures ok <==> !LeavesTable(Added(history), topic)
      ensures ok ==> forall f :: f in selected <==> f in Chosen(Added(history), topic, parentHash)
      ensures ok && ListsOnce(Rows(topic)) ==> NoDup(selected)
    {
      selected := [];
      var xs := Split(topic) + [NUL];
      assert xs == Rows(topic);
      var matches, hashMatches := FirstLevel(xs[0], parentHash, xs);
      var i := 1;
      while i < |xs| && matches != []
        invariant 1 <= i <= |xs| && i <= LEVELS
        invariant LiveList(matches, Added(history), xs, i) && HashedList(hashMatches, Added(history), xs, i, parentHash)
      {
        if i >= |subBitmap| {
          assert IsLive(matches, Added(history), xs, i, matches[0]);
          return false, selected;
        }
        matches, hashMatches := NextLevel(i, xs[i], matches, hashMatches, parentHash, xs);
        i := i + 1;
      }
      StaysInTable(matches, Added(history), topic, i);
      selected := hashMatches + matches;
      WalkIsDone(matches, hashMatches, Added(history), topic, i, parentHash);
      ok := true;
    }

    /** DeliverMessage up to its deliver list, when nothing else touches the table meanwhile. */
    method DeliverList(topic: string, messageQos: QosByte) returns (ok: bool, d: Row)
      requires Valid()
      ensures ok <==> !LeavesTable(Added(history), topic)
      ensures ok ==> IsDeliverList(d, Subs(history), Chosen(Added(history), topic, false), messageQos)
    {
      d := map[];
      var selected;
      ok, selected := Walk(topic, false);
      if !ok {
        return;
      }
      ghost var subs, seen := Subs(history), Members([]);
      var i := 0;
      while i < |selected|
        invariant 0 <= i <= |selected| && seen == Members(selected[..i])
        invariant Folds(d, RowsOf(subs, seen), messageQos)
      {
        var sub := selected[i];
        assert sub in Chosen(Added(history), topic, false);
        ReadOneMore(d, subMap, subs, seen, sub, messageQos);
        d := FoldRow(d, subMap[sub], messageQos);
        MembersOneMore(selected, i);
        seen := seen + {sub};
        i := i + 1;
      }
      assert selected[..i] == selected;
      assert seen == Chosen(Added(history), topic, false);
      FoldedRowsAreDeliverList(d, subs, seen, messageQos);
    }

    /** The batch entry: one AddSub per topic, in order. ok is false if one of them indexes past the table. */
    method AddSubscription(client: string, topics: seq<string>, qoss: seq<QosByte>)
      returns (ok: bool, rQos: seq<QosByte>)
      requires Valid() && |topics| == |qoss|
      modifies this
      ensures ok <==> forall t :: t in topics ==> |Split(t)| <= 9
      ensures ok ==> Valid() && rQos == qoss
      ensures ok ==> history == old(history) + AddOps(client, topics, qoss)
    {
      rQos := seq(|qoss|, _ => 0);
      var i := 0;
      while i < |topics|
        invariant 0 <= i <= |topics| && Valid() && |rQos| == |qoss| && rQos[..i] == qoss[..i]
        invariant AllFit(topics[..i])
        invariant history == old(history) + AddOps(client, topics[..i], qoss[..i])
      {
        AddOpsOneMore(old(history), client, topics, qoss, i);
        var added := AddSub(client, topics[i], qoss[i]);
        if !added {
          return false, rQos;
        }
        rQos := rQos[i := qoss[i]];
        i := i + 1;
      }
      assert topics[..i] == topics && qoss[..i] == qoss;
      ok := true;
    }
  }

  /** No filter has more levels than the table has room for. */
  ghost predicate AllFit(filters: seq<string>)
  {
    forall t :: t in filters ==> |Split(t)| <= 9
  }

  ghost predicate ElementHolds(subElements: map<string, seq<string>>, f: string)
  {
    f in subElements ==> subElements[f] == Split(f) && |subElements[f]| < LEVELS
  }

  ghost predicate ElementsHold(subElements: map<string, seq<string>>)
  {
    forall f {:trigger ElementHolds(subElements, f)} :: ElementHolds(subElements, f)
  }

  lemma RowIsRowOf(subMap: map<string, Row>, subs: Subscriptions, f: string)
    requires CellsHold(subMap, subs) && f in subMap
    ensures subMap[f] == RowOf(subs, f)
  {
    forall c ensures c in subMap[f] <==> c in RowOf(subs, f) {
      assert CellHolds(subMap, subs, f, c);
    }
    forall c | c in subMap[f] ensures subMap[f][c] == RowOf(subs, f)[c] {
      assert CellHolds(subMap, subs, f, c);
    }
  }

  lemma ReadOneMore(d: Row, subMap: map<string, Row>, subs: Subscriptions, seen: set<string>, f: string,
                    messageQos: QosByte)
    requires CellsHold(subMap, subs) && f in subMap && Folds(d, RowsOf(subs, seen), messageQos)
    ensures Folds(MergeRow(d, subMap[f], messageQos), RowsOf(subs, seen + {f}), messageQos)
  {
    RowIsRowOf(subMap, subs, f);
    FoldsOneMore(d, RowsOf(subs, seen), subMap[f], messageQos);
    assert RowsOf(subs, seen + {f}) == RowsOf(subs, seen) + {subMap[f]};
  }

  /** One AddOp per topic, in order. */
  function AddOps(client: string, topics: seq<string>, qoss: seq<QosByte>): seq<SubOp>
    requires |topics| == |qoss|
  {
    var n := |topics| - 1;
    if topics == [] then [] else AddOps(client, topics[..n], qoss[..n]) + [AddOp(client, topics[n], qoss[n])]
  }

  lemma {:induction false} AddOpsMeaning(client: string, topics: seq<string>, qoss: seq<QosByte>)
    requires |topics| == |qoss|
    ensures |AddOps(client, topics, qoss)| == |topics|
    ensures forall i :: 0 <= i < |topics| ==> AddOps(client, topics, qoss)[i] == AddOp(client, topics[i], qoss[i])
    decreases |topics|
  {
    var n := |topics| - 1;
    if topics != [] {
      AddOpsMeaning(client, topics[..n], qoss[..n]);
    }
  }

  lemma AddOpsOneMore(history: seq<SubOp>, client: string, topics: seq<string>, qoss: seq<QosByte>, i: nat)
    requires i < |topics| == |qoss|
    ensures history + AddOps(client, topics[..i + 1], qoss[..i + 1])
      == history + AddOps(client, topics[..i], qoss[..i]) + [AddOp(client, topics[i], qoss[i])]
    ensures AllFit(topics[..i]) && |Split(topics[i])| <= 9 ==> AllFit(topics[..i + 1])
  {
    assert topics[..i + 1] == topics[..i] + [topics[i]];
    assert topics[..i + 1][..i] == topics[..i] && qoss[..i + 1][..i] == qoss[..i];
  }

  lemma ElementAdded(was: map<string, seq<string>>, f: string)
    requires ElementsHold(was) && |Split(f)| < LEVELS
    ensures ElementsHold(was[f := Split(f)])
  {
    var now := was[f := Split(f)];
    forall g ensures ElementHolds(now, g) {
      assert ElementHolds(was, g);
    }
  }

  /** DeleteSubAll's loop at row f. */
  ghost predicate RemovedFrom(was: map<string, Row>, now: map<string, Row>, todo: set<string>, client: string,
                              f: string)
  {
    (f in now <==> f in was)
    && (f in now ==> now[f] == if f in todo then was[f] else was[f] - {client})
  }

  lemma AllRemoved(was: map<string, Row>, now: map<string, Row>, subs: Subscriptions, client: string)
    requires CellsHold(was, subs)
    requires forall f {:trigger RemovedFrom(was, now, {}, client, f)} :: RemovedFrom(was, now, {}, client, f)
    ensures now.Keys == was.Keys && CellsHold(now, Apply(subs, DeleteAllOp(client)))
  {
    var subs' := Apply(subs, DeleteAllOp(client));
    forall f ensures f in now <==> f in was {
      assert RemovedFrom(was, now, {}, client, f);
    }
    forall f, c ensures CellHolds(now, subs', f, c) {
      assert CellHolds(was, subs, f, c);
      assert RemovedFrom(was, now, {}, client, f);
    }
  }

  lemma CellAdded(was: map<string, Row>, now: map<string, Row>, subs: Subscriptions, client: string, filter: string,
                  qos: QosByte)
    requires CellsHold(was, subs)
    requires filter in now && now[filter] == (if filter in was then was[filter] else map[])[client := qos]
    requires now == was[filter := now[filter]]
    ensures CellsHold(now, subs[(client, filter) := qos])
  {
    var subs' := subs[(client, filter) := qos];
    forall f, c ensures CellHolds(now, subs', f, c) {
      assert CellHolds(was, subs, f, c);
    }
  }

  lemma HistoryGrows(history: seq<SubOp>, op: SubOp)
    ensures Subs(history + [op]) == Apply(Subs(history), op)
    ensures op.AddOp? ==> Added(history + [op]) == Added(history) + {op.filter}
    ensures !op.AddOp? ==> Added(history + [op]) == Added(history)
  {
    var longer := history + [op];
    assert longer[..|longer| - 1] == history;
  }
}
