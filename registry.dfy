/** The segment registry: the ordered list of entered rows, with at most one
    row per (organ, segment) key, and the organ scores computed from it. */
module SegmentRegistry {
  import opened Tables
  import opened Observation
  import opened Scoring

  datatype Key = Key(organ: Organ, segment: string)

  function KeyOf(r: Row): Key
  {
    Key(r.organ, r.segment)
  }

  /** How many rows carry key `k`. */
  function CountKey(rows: seq<Row>, k: Key): (n: nat)
    ensures n <= |rows|
    ensures n == 0 <==> forall r | r in rows :: KeyOf(r) != k
  {
    if rows == [] then 0
    else (if KeyOf(rows[0]) == k then 1 else 0) + CountKey(rows[1..], k)
  }

  /** The rows whose key is not `k`, in their original order. */
  function WithoutKey(rows: seq<Row>, k: Key): (rest: seq<Row>)
    ensures |rest| + CountKey(rows, k) == |rows|
    ensures forall r :: r in rest <==> r in rows && KeyOf(r) != k
  {
    if rows == [] then []
    else (if KeyOf(rows[0]) == k then [] else [rows[0]]) + WithoutKey(rows[1..], k)
  }

  /** The rows of organ `o`, in their original order. */
  function RowsOf(rows: seq<Row>, o: Organ): (sel: seq<Row>)
    ensures |sel| <= |rows|
    ensures forall r :: r in sel <==> r in rows && r.organ == o
  {
    if rows == [] then []
    else (if rows[0].organ == o then [rows[0]] else []) + RowsOf(rows[1..], o)
  }

  /** No two rows share a key. */
  predicate KeysUnique(rows: seq<Row>)
  {
    forall i, j | 0 <= i < j < |rows| :: KeyOf(rows[i]) != KeyOf(rows[j])
  }

  /** Every row names a segment of its own organ. */
  predicate SegmentsValid(rows: seq<Row>)
  {
    forall r | r in rows :: r.segment in Segments(r.organ)
  }

  /** The list after upserting `row`: every row with its key dropped, then `row` appended. */
  function Upserted(rows: seq<Row>, row: Row): seq<Row>
  {
    WithoutKey(rows, KeyOf(row)) + [row]
  }

  /** The list after deleting the row at index `i`. */
  function Removed(rows: seq<Row>, i: nat): seq<Row>
    requires i < |rows|
  {
    rows[..i] + rows[i + 1..]
  }

  lemma {:induction false} CountKeyAppend(a: seq<Row>, b: seq<Row>, k: Key)
    ensures CountKey(a + b, k) == CountKey(a, k) + CountKey(b, k)
  {
    if a == [] {
      assert a + b == b;
    } else {
      assert (a + b)[1..] == a[1..] + b;
      CountKeyAppend(a[1..], b, k);
    }
  }

  lemma {:induction false} WithoutKeyAppend(a: seq<Row>, b: seq<Row>, k: Key)
    ensures WithoutKey(a + b, k) == WithoutKey(a, k) + WithoutKey(b, k)
  {
    if a == [] {
      assert a + b == b;
    } else {
      assert (a + b)[1..] == a[1..] + b;
      WithoutKeyAppend(a[1..], b, k);
    }
  }

  /** Dropping a key twice is dropping it once. */
  lemma {:induction false} WithoutKeyIdempotent(rows: seq<Row>, k: Key)
    ensures WithoutKey(WithoutKey(rows, k), k) == WithoutKey(rows, k)
  {
    if rows != [] {
      var head := if KeyOf(rows[0]) == k then [] else [rows[0]];
      WithoutKeyAppend(head, WithoutKey(rows[1..], k), k);
      WithoutKeyIdempotent(rows[1..], k);
      if head != [] {
        assert head[1..] == [];
      }
    }
  }

  /** With unique keys, a key occurs at most once. */
  lemma {:induction false} UniqueCountAtMostOne(rows: seq<Row>, k: Key)
    requires KeysUnique(rows)
    ensures CountKey(rows, k) <= 1
  {
    if rows != [] {
      assert KeysUnique(rows[1..]) by {
        forall i, j | 0 <= i < j < |rows[1..]|
          ensures KeyOf(rows[1..][i]) != KeyOf(rows[1..][j])
        {
          assert rows[1..][i] == rows[i + 1] && rows[1..][j] == rows[j + 1];
        }
      }
      UniqueCountAtMostOne(rows[1..], k);
      if KeyOf(rows[0]) == k {
        forall r | r in rows[1..] ensures KeyOf(r) != k {
          var j :| 0 <= j < |rows[1..]| && rows[1..][j] == r;
          assert rows[j + 1] == r;
        }
      }
    }
  }

  /** Dropping a key keeps the remaining keys unique. */
  lemma {:induction false} WithoutKeyUnique(rows: seq<Row>, k: Key)
    requires KeysUnique(rows)
    ensures KeysUnique(WithoutKey(rows, k))
  {
    if rows != [] {
      var tail := rows[1..];
      assert KeysUnique(tail) by {
        forall i, j | 0 <= i < j < |tail| ensures KeyOf(tail[i]) != KeyOf(tail[j]) {
          assert tail[i] == rows[i + 1] && tail[j] == rows[j + 1];
        }
      }
      WithoutKeyUnique(tail, k);
      var w := WithoutKey(tail, k);
      if KeyOf(rows[0]) != k {
        forall r | r in w ensures KeyOf(r) != KeyOf(rows[0]) {
          var j :| 0 <= j < |tail| && tail[j] == r;
          assert rows[j + 1] == r;
        }
        var res := [rows[0]] + w;
        forall i, j | 0 <= i < j < |res| ensures KeyOf(res[i]) != KeyOf(res[j]) {
          assert res[j] == w[j - 1];
          if i > 0 {
            assert res[i] == w[i - 1];
          } else {
            assert res[j] in w;
          }
        }
      }
    }
  }

  /** After an upsert, exactly one row carries the upserted key, and it is the
      new row, in last position. */
  lemma UpsertedKeyOnce(rows: seq<Row>, row: Row)
    ensures CountKey(Upserted(rows, row), KeyOf(row)) == 1
    ensures Upserted(rows, row)[|Upserted(rows, row)| - 1] == row
    ensures forall r | r in Upserted(rows, row) && KeyOf(r) == KeyOf(row) :: r == row
  {
    var k := KeyOf(row);
    CountKeyAppend(WithoutKey(rows, k), [row], k);
    assert [row][1..] == [];
  }

  /** An upsert leaves the rows of every other key as they were: same values,
      same relative order. */
  lemma UpsertedKeepsOthers(rows: seq<Row>, row: Row)
    ensures WithoutKey(Upserted(rows, row), KeyOf(row)) == WithoutKey(rows, KeyOf(row))
  {
    var k := KeyOf(row);
    WithoutKeyAppend(WithoutKey(rows, k), [row], k);
    WithoutKeyIdempotent(rows, k);
    assert [row][1..] == [];
  }

  /** An upsert keeps keys unique and segments valid. It adds one row for a new
      key and leaves the count unchanged for a key already present. */
  lemma UpsertedValid(rows: seq<Row>, row: Row)
    requires KeysUnique(rows) && SegmentsValid(rows)
    requires row.segment in Segments(row.organ)
    ensures KeysUnique(Upserted(rows, row)) && SegmentsValid(Upserted(rows, row))
    ensures |Upserted(rows, row)| == if CountKey(rows, KeyOf(row)) == 0 then |rows| + 1 else |rows|
  {
    var k := KeyOf(row);
    var w := WithoutKey(rows, k);
    WithoutKeyUnique(rows, k);
    UniqueCountAtMostOne(rows, k);
    var res := w + [row];
    forall i, j | 0 <= i < j < |res| ensures KeyOf(res[i]) != KeyOf(res[j]) {
      if j == |w| {
        assert res[i] in w;
      }
    }
  }

  /** Upserting the same key twice is upserting the later row once: the list
      keeps one row for the key, holding the latest values, and its length does
      not change. */
  lemma UpsertedTwice(rows: seq<Row>, first: Row, second: Row)
    requires KeyOf(first) == KeyOf(second)
    ensures Upserted(Upserted(rows, first), second) == Upserted(rows, second)
    ensures |Upserted(Upserted(rows, first), second)| == |Upserted(rows, first)|
  {
    UpsertedKeepsOthers(rows, first);
  }

  /** Deleting the row at index `i` keeps keys unique and segments valid, and
      removes one occurrence of that row's key. */
  lemma RemovedValid(rows: seq<Row>, i: nat)
    requires i < |rows|
    requires KeysUnique(rows) && SegmentsValid(rows)
    ensures KeysUnique(Removed(rows, i)) && SegmentsValid(Removed(rows, i))
    ensures CountKey(Removed(rows, i), KeyOf(rows[i])) == 0
  {
    var res := Removed(rows, i);
    forall a, b | 0 <= a < b < |res| ensures KeyOf(res[a]) != KeyOf(res[b]) {
      var a' := if a < i then a else a + 1;
      var b' := if b < i then b else b + 1;
      assert res[a] == rows[a'] && res[b] == rows[b'];
    }
    forall r | r in res ensures r in rows && KeyOf(r) != KeyOf(rows[i]) {
      var j :| 0 <= j < |res| && res[j] == r;
      var j' := if j < i then j else j + 1;
      assert res[j] == rows[j'];
    }
  }

  /** Deleting a just-upserted row (the last one) leaves exactly the rows of the
      other keys, in their order: the key is gone. */
  lemma RemoveAfterUpsert(rows: seq<Row>, row: Row)
    ensures Removed(Upserted(rows, row), |Upserted(rows, row)| - 1) == WithoutKey(rows, KeyOf(row))
    ensures CountKey(Removed(Upserted(rows, row), |Upserted(rows, row)| - 1), KeyOf(row)) == 0
  {
    var u := Upserted(rows, row);
    assert u[..|u| - 1] == WithoutKey(rows, KeyOf(row));
    assert u[|u|..] == [];
  }

  lemma {:induction false} RowsOfUnique(rows: seq<Row>, o: Organ)
    requires KeysUnique(rows)
    ensures KeysUnique(RowsOf(rows, o))
  {
    if rows != [] {
      var tail := rows[1..];
      assert KeysUnique(tail) by {
        forall i, j | 0 <= i < j < |tail| ensures KeyOf(tail[i]) != KeyOf(tail[j]) {
          assert tail[i] == rows[i + 1] && tail[j] == rows[j + 1];
        }
      }
      RowsOfUnique(tail, o);
      var w := RowsOf(tail, o);
      if rows[0].organ == o {
        forall r | r in w ensures KeyOf(r) != KeyOf(rows[0]) {
          var j :| 0 <= j < |tail| && tail[j] == r;
          assert rows[j + 1] == r;
        }
        var res := [rows[0]] + w;
        forall i, j | 0 <= i < j < |res| ensures KeyOf(res[i]) != KeyOf(res[j]) {
          assert res[j] == w[j - 1];
          if i > 0 {
            assert res[i] == w[i - 1];
          } else {
            assert res[j] in w;
          }
        }
      }
    }
  }

  function SegmentSet(rows: seq<Row>): set<string>
  {
    set r | r in rows :: r.segment
  }

  lemma {:induction false} DistinctSegmentsCount(rows: seq<Row>)
    requires forall i, j | 0 <= i < j < |rows| :: rows[i].segment != rows[j].segment
    ensures |SegmentSet(rows)| == |rows|
  {
    if rows != [] {
      var tail := rows[1..];
      DistinctSegmentsCount(tail);
      assert SegmentSet(rows) == {rows[0].segment} + SegmentSet(tail) by {
        assert rows == [rows[0]] + tail;
      }
    }
  }

  lemma {:induction false} SeqSetCard(s: seq<string>)
    ensures |set x | x in s| <= |s|
  {
    if s != [] {
      SeqSetCard(s[1..]);
      assert (set x | x in s) == {s[0]} + (set x | x in s[1..]) by {
        assert s == [s[0]] + s[1..];
      }
    }
  }

  lemma SubsetCard(a: set<string>, b: set<string>)
    requires a <= b
    ensures |a| <= |b|
  {
    assert b == a + (b - a);
  }

  /** In a registry with unique keys and valid segments an organ has at most as
      many rows as its denominator, so its score is at most the maximum points
      of one segment: 17.0 for the upper tract, 19.0 for the small bowel, 19.5
      for colon and rectum, 16.5 for the anus. */
  lemma OrganScoreBounded(rows: seq<Row>, o: Organ)
    requires KeysUnique(rows) && SegmentsValid(rows)
    ensures |RowsOf(rows, o)| <= Denom(o)
    ensures 0.0 <= OrganLi(o, RowsOf(rows, o)) <= MaxSegmentScore(o) as real / 10.0
  {
    var sel := RowsOf(rows, o);
    RowsOfUnique(rows, o);
    forall i, j | 0 <= i < j < |sel| ensures sel[i].segment != sel[j].segment {
      assert sel[i] in sel && sel[j] in sel;
      assert KeyOf(sel[i]) != KeyOf(sel[j]);
    }
    DistinctSegmentsCount(sel);
    SeqSetCard(Segments(o));
    assert SegmentSet(sel) <= set x | x in Segments(o);
    SubsetCard(SegmentSet(sel), set x | x in Segments(o));
    SegmentsWellFormed(o);
    OrganLiBound(o, sel);
  }

  /** The organ scores the calculator shows for a list of rows. */
  function Scores(rows: seq<Row>): (scores: map<Organ, real>)
    ensures forall o: Organ :: o in scores
  {
    AllOrgansListed();
    map o | o in AllOrgans :: OrganLi(o, RowsOf(rows, o))
  }

  /** In a registry with unique keys and valid segments the global index lies
      between 0 and 209.75, the value with every segment at its maximum. */
  lemma GlobalScoreBounded(rows: seq<Row>)
    requires KeysUnique(rows) && SegmentsValid(rows)
    ensures 0.0 <= GlobalLi(Scores(rows)) <= 209.75
  {
    var s := Scores(rows);
    OrganScoreBounded(rows, Upper);
    OrganScoreBounded(rows, SmallBowel);
    OrganScoreBounded(rows, ColonRectum);
    OrganScoreBounded(rows, Anus);
    GlobalLiTerms(s);
  }

  /** The list of entered rows, owned by one session. */
  class Registry {
    var rows: seq<Row>

    ghost predicate Valid()
      reads this
    {
      KeysUnique(rows) && SegmentsValid(rows)
    }

    constructor ()
      ensures Valid() && rows == []
    {
      rows := [];
    }

    /** Saves an entry: the rows of the same organ and segment are filtered out,
        then the new row is appended. */
    method Upsert(o: Organ, segment: string, resectPct: int, feat: Fields)
      requires Valid()
      requires segment in Segments(o)
      modifies this
      ensures Valid()
      ensures rows == Upserted(old(rows), Row(o, segment, resectPct, feat))
      ensures |rows| == if CountKey(old(rows), Key(o, segment)) == 0 then |old(rows)| + 1 else |old(rows)|
    {
      UpsertedValid(rows, Row(o, segment, resectPct, feat));
      rows := WithoutKey(rows, Key(o, segment));
      rows := rows + [Row(o, segment, resectPct, feat)];
    }

    /** Deletes the row at position `i` of the list. */
    method Delete(i: nat)
      requires Valid()
      requires i < |rows|
      modifies this
      ensures Valid()
      ensures rows == old(rows)[..i] + old(rows)[i + 1..]
      ensures CountKey(rows, KeyOf(old(rows)[i])) == 0
    {
      RemovedValid(rows, i);
      rows := rows[..i] + rows[i + 1..];
    }

    /** The score of each organ, computed from that organ's rows, in the order
        the organs are listed. */
    method OrganScores() returns (scores: map<Organ, real>)
      ensures forall o: Organ :: o in scores && scores[o] == OrganLi(o, RowsOf(rows, o))
      ensures scores == Scores(rows)
    {
      scores := map[];
      var n := 0;
      while n < |AllOrgans|
        invariant 0 <= n <= |AllOrgans|
        invariant scores.Keys == set o | o in AllOrgans[..n]
        invariant forall o | o in scores :: scores[o] == OrganLi(o, RowsOf(rows, o))
      {
        var o := AllOrgans[n];
        var organRows := RowsOf(rows, o);
        scores := scores[o := OrganLi(o, organRows)];
        n := n + 1;
        assert AllOrgans[..n] == AllOrgans[..n - 1] + [o];
      }
      assert AllOrgans[..n] == AllOrgans;
      AllOrgansListed();
    }

    /** The global index of the current rows. */
    method GlobalScore() returns (gli: real)
      requires Valid()
      ensures gli == GlobalLi(Scores(rows))
      ensures 0.0 <= gli <= 209.75
    {
      var scores := OrganScores();
      gli := GlobalLi(scores);
      GlobalScoreBounded(rows);
    }
  }
}
