/** Quality-of-service values and the fold that gives each client one QoS per message. */
module Qos {

  type QosByte = q: int | 0 <= q < 256

  // One row of the subscription table: the clients holding a filter, with the QoS each asked for.
  type Row = map<string, QosByte>

  function Min(a: QosByte, b: QosByte): (m: QosByte)
    ensures m <= a && m <= b && (m == a || m == b)
  {
    if a < b then a else b
  }

  function Max(a: QosByte, b: QosByte): (m: QosByte)
    ensures m >= a && m >= b && (m == a || m == b)
  {
    if a > b then a else b
  }

  /** What client c is given once row has been read as well. */
  function Merged(d: Row, row: Row, messageQos: QosByte, c: string): QosByte
    requires c in d || c in row
  {
    if c !in row then d[c]
    else if c in d then Min(Max(d[c], row[c]), messageQos)
    else Min(row[c], messageQos)
  }

  /** The deliver list after one more row has been read. */
  function MergeRow(d: Row, row: Row, messageQos: QosByte): (d': Row)
    ensures d'.Keys == d.Keys + row.Keys
  {
    map c | c in d.Keys + row.Keys :: Merged(d, row, messageQos, c)
  }

  /** Halfway through the row: clients still to do are as before, the others are merged. */
  ghost predicate MergedBut(d: Row, d': Row, row: Row, todo: set<string>, messageQos: QosByte, c: string)
  {
    if c in row && c !in todo then c in d' && d'[c] == Merged(d, row, messageQos, c)
    else (c in d' <==> c in d) && (c in d ==> d'[c] == d[c])
  }

  /** The loop over one row: clients come in an arbitrary order. */
  method FoldRow(d: Row, row: Row, messageQos: QosByte) returns (d': Row)
    ensures d' == MergeRow(d, row, messageQos)
  {
    d' := d;
    var todo := row.Keys;
    while todo != {}
      invariant todo <= row.Keys
      invariant forall c {:trigger MergedBut(d, d', row, todo, messageQos, c)} ::
        MergedBut(d, d', row, todo, messageQos, c)
      decreases |todo|
    {
      var c :| c in todo;
      assert MergedBut(d, d', row, todo, messageQos, c);
      ghost var was, left := d', todo - {c};
      if c in d' {
        d' := d'[c := Min(Max(d'[c], row[c]), messageQos)];
      } else {
        d' := d'[c := Min(row[c], messageQos)];
      }
      forall x ensures MergedBut(d, d', row, left, messageQos, x) {
        assert MergedBut(d, was, row, todo, messageQos, x);
      }
      todo := todo - {c};
    }
    forall c ensures c in d' <==> c in d || c in row {
      assert MergedBut(d, d', row, {}, messageQos, c);
    }
    forall c | c in d' ensures d'[c] == Merged(d, row, messageQos, c) {
      assert MergedBut(d, d', row, {}, messageQos, c);
    }
  }

  /** d gives c no more than the message QoS and no more than some row, as much as one of the two, and as much as
      every row unless that is more than the message QoS; and nothing if no row holds c. */
  ghost predicate Best(d: Row, rows: set<Row>, messageQos: QosByte, c: string)
  {
    if c in d then
      d[c] <= messageQos
      && (exists r :: r in rows && c in r && d[c] <= r[c] && (d[c] == messageQos || d[c] == r[c]))
      && (forall r :: r in rows && c in r ==> d[c] == messageQos || r[c] <= d[c])
    else
      forall r :: r in rows ==> c !in r
  }

  ghost predicate Folds(d: Row, rows: set<Row>, messageQos: QosByte)
  {
    forall c {:trigger Best(d, rows, messageQos, c)} :: Best(d, rows, messageQos, c)
  }

  lemma FoldsOfNothing(messageQos: QosByte)
    ensures Folds(map[], {}, messageQos)
  {
    forall c ensures Best(map[], {}, messageQos, c) {
    }
  }

  lemma FoldsOneMore(d: Row, rows: set<Row>, row: Row, messageQos: QosByte)
    requires Folds(d, rows, messageQos)
    ensures Folds(MergeRow(d, row, messageQos), rows + {row}, messageQos)
  {
    var d', rows' := MergeRow(d, row, messageQos), rows + {row};
    forall c ensures Best(d', rows', messageQos, c) {
      assert Best(d, rows, messageQos, c);
      assert row in rows';
      if c in d {
        var r :| r in rows && c in r && d[c] <= r[c] && (d[c] == messageQos || d[c] == r[c]);
        assert r in rows';
      }
    }
  }

  lemma FoldsUnique(d: Row, e: Row, rows: set<Row>, messageQos: QosByte)
    requires Folds(d, rows, messageQos) && Folds(e, rows, messageQos)
    ensures d == e
  {
    forall c ensures (c in d <==> c in e) && (c in d ==> d[c] == e[c]) {
      assert Best(d, rows, messageQos, c) && Best(e, rows, messageQos, c);
    }
  }

  function RowSet(rows: seq<Row>): set<Row> { set r | r in rows }

  /** The deliver list after reading a sequence of rows. */
  function MergeAll(rows: seq<Row>, messageQos: QosByte): Row
  {
    if rows == [] then map[]
    else MergeRow(MergeAll(rows[..|rows| - 1], messageQos), rows[|rows| - 1], messageQos)
  }

  lemma {:induction false} MergeAllFolds(rows: seq<Row>, messageQos: QosByte)
    ensures Folds(MergeAll(rows, messageQos), RowSet(rows), messageQos)
  {
    if rows != [] {
      var before, last := rows[..|rows| - 1], rows[|rows| - 1];
      MergeAllFolds(before, messageQos);
      FoldsOneMore(MergeAll(before, messageQos), RowSet(before), last, messageQos);
      assert rows == before + [last];
      assert RowSet(rows) == RowSet(before) + {last};
    }
  }

  /** The fold depends neither on the order nor on repetitions of the rows. */
  lemma MergeAllOrderIndependent(rows: seq<Row>, rows': seq<Row>, messageQos: QosByte)
    requires RowSet(rows) == RowSet(rows')
    ensures MergeAll(rows, messageQos) == MergeAll(rows', messageQos)
  {
    MergeAllFolds(rows, messageQos);
    MergeAllFolds(rows', messageQos);
    FoldsUnique(MergeAll(rows, messageQos), MergeAll(rows', messageQos), RowSet(rows), messageQos);
  }
}
