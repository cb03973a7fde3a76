/** Segment, organ and global scores. Segment points are whole tenths of a
    point; organ and global scores are exact reals, before the calculator
    rounds them to two decimals. */
module Scoring {
  import opened Tables
  import opened Observation
  import opened Grading

  /** The resected percentage brought into 0..100. */
  function Clamp(pct: int): (c: int)
    ensures 0 <= c <= 100
    ensures 0 <= pct <= 100 ==> c == pct
    ensures pct < 0 ==> c == 0
    ensures pct > 100 ==> c == 100
  {
    if pct < 0 then 0 else if pct > 100 then 100 else pct
  }

  /** Points, in tenths, that a lesion of grade `g` adds: its coefficient when
      the grade is positive, nothing otherwise. */
  function LesionPoints(o: Organ, l: Lesion, g: int): nat
  {
    if g > 0 then Coef(o, l, g) else 0
  }

  /** The most a single segment of organ `o` can score, in tenths: a full
      resection plus the grade-3 coefficients of both lesion categories. */
  function MaxSegmentScore(o: Organ): nat
  {
    100 + Coef(o, Str, 3) + Coef(o, Pen, 3)
  }

  /** Points of one segment, in tenths: one point per 10% resected (at most
      10 points), plus the coefficient of each positive lesion grade. */
  function ScoreSegment(o: Organ, r: Row): (pts: nat)
    ensures Clamp(r.resectPct) <= pts <= Clamp(r.resectPct) + Coef(o, Str, 3) + Coef(o, Pen, 3)
    ensures pts <= MaxSegmentScore(o)
  {
    CoefMonotone(o, Str, Grade(o, Str, r.feat), 3);
    CoefMonotone(o, Pen, Grade(o, Pen, r.feat), 3);
    Clamp(r.resectPct)
      + LesionPoints(o, Str, Grade(o, Str, r.feat))
      + LesionPoints(o, Pen, Grade(o, Pen, r.feat))
  }

  /** Skipping the lookup for grade 0 changes nothing: the score is the clamped
      resection plus the table entries of both grades, since the table has no
      entry (0 points) for grade 0. */
  lemma ScoreIsTableSum(o: Organ, r: Row)
    ensures ScoreSegment(o, r)
         == Clamp(r.resectPct) + Coef(o, Str, Grade(o, Str, r.feat)) + Coef(o, Pen, Grade(o, Pen, r.feat))
  {
  }

  /** With lesion grades fixed, 10 more percent resected within 0..100 adds
      exactly one point, and percentages outside 0..100 count as their bound. */
  lemma ResectionStep(o: Organ, r: Row, p: int, q: int)
    requires 0 <= p <= 90
    ensures ScoreSegment(o, r.(resectPct := p + 10)) == ScoreSegment(o, r.(resectPct := p)) + 10
    ensures q > 100 ==> ScoreSegment(o, r.(resectPct := q)) == ScoreSegment(o, r.(resectPct := 100))
    ensures q < 0 ==> ScoreSegment(o, r.(resectPct := q)) == ScoreSegment(o, r.(resectPct := 0))
  {
  }

  /** Summed points of a list of rows, in tenths. */
  function SumScores(o: Organ, rows: seq<Row>): (total: nat)
    ensures total <= |rows| * MaxSegmentScore(o)
  {
    if rows == [] then 0
    else ScoreSegment(o, rows[0]) + SumScores(o, rows[1..])
  }

  lemma {:induction false} SumScoresAppend(o: Organ, a: seq<Row>, b: seq<Row>)
    ensures SumScores(o, a + b) == SumScores(o, a) + SumScores(o, b)
  {
    if a == [] {
      assert a + b == b;
    } else {
      assert (a + b)[1..] == a[1..] + b;
      SumScoresAppend(o, a[1..], b);
    }
  }

  lemma MultisetRemoveHead<T>(a: seq<T>, b: seq<T>, i: nat)
    requires multiset(a) == multiset(b)
    requires |a| > 0 && i < |b| && b[i] == a[0]
    ensures multiset(a[1..]) == multiset(b[..i] + b[i + 1..])
  {
    assert a == [a[0]] + a[1..];
    assert b == b[..i] + [a[0]] + b[i + 1..];
    assert multiset(a[1..]) == multiset(a) - multiset{a[0]};
  }

  /** The sum does not depend on the order of the rows. */
  lemma {:induction false} SumScoresPermutation(o: Organ, a: seq<Row>, b: seq<Row>)
    requires multiset(a) == multiset(b)
    ensures SumScores(o, a) == SumScores(o, b)
  {
    if a == [] {
      assert |b| == |multiset(b)| == |multiset(a)| == 0;
      assert b == [];
    } else {
      var x := a[0];
      assert x in multiset(b);
      var i :| 0 <= i < |b| && b[i] == x;
      var left, right := b[..i], b[i + 1..];
      assert b == left + ([x] + right);
      MultisetRemoveHead(a, b, i);
      SumScoresPermutation(o, a[1..], left + right);
      SumScoresAppend(o, left, [x] + right);
      SumScoresAppend(o, left, right);
      assert ([x] + right)[1..] == right;
      assert SumScores(o, [x] + right) == ScoreSegment(o, x) + SumScores(o, right);
    }
  }

  /** An organ's normalised score: its summed segment points divided by the
      organ's fixed denominator (unrounded). */
  function OrganLi(o: Organ, rows: seq<Row>): (li: real)
    ensures rows == [] ==> li == 0.0
    ensures 0.0 <= li
  {
    SumScores(o, rows) as real / (10 * Denom(o)) as real
  }

  /** With no more rows than its denominator, as when each segment of the
      organ is recorded at most once, an organ scores at most the maximum
      points of a single segment. */
  lemma OrganLiBound(o: Organ, rows: seq<Row>)
    requires |rows| <= Denom(o)
    ensures OrganLi(o, rows) <= MaxSegmentScore(o) as real / 10.0
  {
    var m := MaxSegmentScore(o);
    var d := Denom(o);
    var s := SumScores(o, rows);
    assert s <= |rows| * m;
    assert |rows| * m <= d * m by {
      assert (d - |rows|) * m >= 0;
    }
    var dr := (10 * d) as real;
    assert s as real <= (d * m) as real;
    assert (d * m) as real / dr == m as real / 10.0;
  }

  /** Reordering an organ's rows leaves its score unchanged. */
  lemma OrganLiPermutation(o: Organ, a: seq<Row>, b: seq<Row>)
    requires multiset(a) == multiset(b)
    ensures OrganLi(o, a) == OrganLi(o, b)
  {
    SumScoresPermutation(o, a, b);
  }

  /** The weighted contribution of one organ when its score was supplied. */
  function Term(o: Organ, scores: map<Organ, real>): real
  {
    if o in scores then (Weight(o) as real / 10.0) * scores[o] else 0.0
  }

  function WeightedSum(os: seq<Organ>, scores: map<Organ, real>): (s: real)
    ensures (forall o | o in scores :: scores[o] >= 0.0) ==> s >= 0.0
  {
    if os == [] then 0.0 else Term(os[0], scores) + WeightedSum(os[1..], scores)
  }

  /** The global index: the weighted sum of the supplied organ scores (unrounded). */
  function GlobalLi(scores: map<Organ, real>): (gli: real)
    ensures (forall o | o in scores :: scores[o] >= 0.0) ==> gli >= 0.0
  {
    WeightedSum(AllOrgans, scores)
  }

  /** The global index is, term by term, upper 2.0, small bowel 4.0, colon and
      rectum 3.0 and anus 2.5 times the organ's score; an organ not supplied
      contributes nothing. */
  lemma GlobalLiTerms(scores: map<Organ, real>)
    ensures GlobalLi(scores)
         == (if Upper in scores then 2.0 * scores[Upper] else 0.0)
          + (if SmallBowel in scores then 4.0 * scores[SmallBowel] else 0.0)
          + (if ColonRectum in scores then 3.0 * scores[ColonRectum] else 0.0)
          + (if Anus in scores then 2.5 * scores[Anus] else 0.0)
  {
    assert WeightedSum([Anus], scores) == Term(Anus, scores) by {
      assert [Anus][1..] == [];
    }
    assert WeightedSum([ColonRectum, Anus], scores) == Term(ColonRectum, scores) + Term(Anus, scores) by {
      assert [ColonRectum, Anus][1..] == [Anus];
    }
    assert WeightedSum([SmallBowel, ColonRectum, Anus], scores)
        == Term(SmallBowel, scores) + Term(ColonRectum, scores) + Term(Anus, scores) by {
      assert [SmallBowel, ColonRectum, Anus][1..] == [ColonRectum, Anus];
    }
    assert AllOrgans[1..] == [SmallBowel, ColonRectum, Anus];
    assert GlobalLi(scores) == Term(Upper, scores) + WeightedSum([SmallBowel, ColonRectum, Anus], scores);
  }

  /** The calculator weights organ scores already rounded to two decimals. If
      every supplied score is off by at most 0.005, the global index moves by at
      most 11.5 (the sum of the weights) times 0.005 = 0.0575. */
  lemma GlobalLiRoundingGap(exact: map<Organ, real>, rounded: map<Organ, real>)
    requires exact.Keys == rounded.Keys
    requires forall o | o in exact :: -0.005 <= rounded[o] - exact[o] <= 0.005
    ensures -0.0575 <= GlobalLi(rounded) - GlobalLi(exact) <= 0.0575
  {
    GlobalLiTerms(exact);
    GlobalLiTerms(rounded);
  }

  /** One upper-tract segment 10% resected and nothing else scores 1/3 for the
      upper tract: 2/3 on the exact organ score, but 0.66 on the organ score
      rounded to 0.33 first. */
  lemma RoundingExample()
    ensures var r := Row(Upper, "stomach", 10, Fields(false, 0.0, false, false, false, false, 0,
                                                      false, false, false, false, 0, 0));
            && OrganLi(Upper, [r]) * 3.0 == 1.0
            && GlobalLi(map[Upper := OrganLi(Upper, [r])]) * 3.0 == 2.0
            && GlobalLi(map[Upper := 0.33]) == 0.66
  {
    var r := Row(Upper, "stomach", 10, Fields(false, 0.0, false, false, false, false, 0,
                                             false, false, false, false, 0, 0));
    assert [r][1..] == [];
    GlobalLiTerms(map[Upper := OrganLi(Upper, [r])]);
    GlobalLiTerms(map[Upper := 0.33]);
  }

  /** Raising organ scores never lowers the global index. */
  lemma GlobalLiMonotone(s1: map<Organ, real>, s2: map<Organ, real>)
    requires s1.Keys == s2.Keys
    requires forall o | o in s1 :: s1[o] <= s2[o]
    ensures GlobalLi(s1) <= GlobalLi(s2)
  {
    GlobalLiTerms(s1);
    GlobalLiTerms(s2);
  }

  /** Raising one organ's score by `d` raises the global index by exactly that
      organ's weight times `d`. */
  lemma GlobalLiWeight(scores: map<Organ, real>, o: Organ, v: real, d: real)
    ensures GlobalLi(scores[o := v + d]) == GlobalLi(scores[o := v]) + (Weight(o) as real / 10.0) * d
  {
    GlobalLiTerms(scores[o := v + d]);
    GlobalLiTerms(scores[o := v]);
  }

  /** A small-bowel segment with a 4 mm wall and nothing else scores 3.0
      points, which is 0.15 for the small bowel on its own. */
  lemma SmallBowelExample()
    ensures var f := InferFlags(SmallBowel, Fields(false, 4.0, false, false, false, false, 0,
                                                   false, false, false, false, 0, 0));
            var r := Row(SmallBowel, "bin_01", 0, f);
            && Grade(SmallBowel, Str, f) == 2
            && ScoreSegment(SmallBowel, r) == 30
            && OrganLi(SmallBowel, [r]) == 0.15
  {
    var f := InferFlags(SmallBowel, Fields(false, 4.0, false, false, false, false, 0,
                                          false, false, false, false, 0, 0));
    var r := Row(SmallBowel, "bin_01", 0, f);
    assert [r][1..] == [];
  }

  /** An anus entry with stricturing grade 2 and no penetrating grade scores
      2.0 points and 2.0 for the anus. */
  lemma AnusExample()
    ensures var r := Row(Anus, "anus", 0, AnusEntry(2, 0));
            && ScoreSegment(Anus, r) == 20
            && OrganLi(Anus, [r]) == 2.0
  {
    var r := Row(Anus, "anus", 0, AnusEntry(2, 0));
    assert [r][1..] == [];
  }

  /** Organ scores 0.0, 0.15, 0.0 and 2.0 give a global index of 5.6. */
  lemma GlobalExample()
    ensures GlobalLi(map[Upper := 0.0, SmallBowel := 0.15, ColonRectum := 0.0, Anus := 2.0]) == 5.6
  {
    GlobalLiTerms(map[Upper := 0.0, SmallBowel := 0.15, ColonRectum := 0.0, Anus := 2.0]);
  }
}
