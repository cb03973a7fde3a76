/** Constant tables of the updated Lémann Index: lesion coefficients, organ
    weights, segment lists and organ denominators.

    Points are counted in TENTHS of a point throughout the model, so that
    every coefficient (all multiples of 0.5) and every resection contribution
    (resect_pct / 10) is a whole number: 3.5 points is 35, 0.5 is 5. */
module Tables {

  datatype Organ = Upper | SmallBowel | ColonRectum | Anus

  /** The two lesion categories graded per segment: stricturing and penetrating. */
  datatype Lesion = Str | Pen

  /** The organs in the order in which the calculator lists and scores them. */
  const AllOrgans: seq<Organ> := [Upper, SmallBowel, ColonRectum, Anus]

  lemma AllOrgansListed()
    ensures forall o: Organ :: o in AllOrgans
  {
    forall o: Organ ensures o in AllOrgans {
      var i := match o case Upper => 0 case SmallBowel => 1 case ColonRectum => 2 case Anus => 3;
      assert AllOrgans[i] == o;
    }
  }

  /** Points, in tenths, for a lesion of category `l` and grade `g` in organ `o`.
      Grades outside 1..3 have no table entry and contribute nothing, as a
      dictionary lookup with a 0.0 default does. */
  function Coef(o: Organ, l: Lesion, g: int): (c: nat)
    ensures c <= 50 && c % 5 == 0
    ensures (g < 1 || g > 3) ==> c == 0
  {
    if g < 1 || g > 3 then 0
    else
      var row: seq<nat> :=
        match (o, l)
        case (Upper, Str) => [0, 35, 50]
        case (Upper, Pen) => [10, 15, 20]
        case (SmallBowel, Str) => [0, 30, 50]
        case (SmallBowel, Pen) => [0, 15, 40]
        case (ColonRectum, Str) => [5, 20, 50]
        case (ColonRectum, Pen) => [10, 25, 45]
        case (Anus, Str) => [0, 20, 35]
        case (Anus, Pen) => [0, 25, 30];
      row[g - 1]
  }

  /** A more severe grade never earns fewer points. */
  lemma CoefMonotone(o: Organ, l: Lesion, g: int, h: int)
    requires g <= h <= 3
    ensures Coef(o, l, g) <= Coef(o, l, h)
  {
  }

  /** The organ's weight in the global index, in tenths (upper 2.0, small bowel
      4.0, colon and rectum 3.0, anus 2.5). */
  function Weight(o: Organ): (w: nat)
    ensures 20 <= w <= 40
  {
    match o
    case Upper => 20
    case SmallBowel => 40
    case ColonRectum => 30
    case Anus => 25
  }

  /** The fixed number an organ's summed segment points are divided by. */
  function Denom(o: Organ): (d: nat)
    ensures d >= 1
  {
    match o
    case Upper => 3
    case SmallBowel => 20
    case ColonRectum => 6
    case Anus => 1
  }

  function DigitChar(d: int): (c: char)
    requires 0 <= d <= 9
    ensures '0' <= c <= '9'
  {
    ('0' as int + d) as char
  }

  /** The name of small-bowel bin `i`, zero-padded to two digits: "bin_01" .. "bin_20". */
  function BinName(i: int): (s: string)
    requires 0 <= i <= 99
    ensures |s| == 6 && s[..4] == "bin_"
    ensures '0' <= s[4] <= '9' && '0' <= s[5] <= '9'
    ensures (s[4] as int - '0' as int) * 10 + (s[5] as int - '0' as int) == i
  {
    "bin_" + [DigitChar(i / 10), DigitChar(i % 10)]
  }

  lemma BinNameInjective(i: int, j: int)
    requires 0 <= i <= 99 && 0 <= j <= 99
    requires BinName(i) == BinName(j)
    ensures i == j
  {
    assert BinName(i)[4] == BinName(j)[4] && BinName(i)[5] == BinName(j)[5];
    assert i / 10 == j / 10 && i % 10 == j % 10;
  }

  /** The valid segments of each organ, in display order; there are as many
      as the organ's denominator. */
  function Segments(o: Organ): (segs: seq<string>)
    ensures |segs| == Denom(o)
  {
    match o
    case Upper => ["oesophagus", "stomach", "duodenum"]
    case SmallBowel => seq(20, i requires 0 <= i < 20 => BinName(i + 1))
    case ColonRectum => ["caecum", "ascending", "transverse", "descending", "sigmoid", "rectum"]
    case Anus => ["anus"]
  }

  ghost predicate Distinct(s: seq<string>)
  {
    forall i, j :: 0 <= i < j < |s| ==> s[i] != s[j]
  }

  /** Each organ lists each of its segments once, and its denominator equals the
      number of its segments (3, 20, 6 and 1). */
  lemma SegmentsWellFormed(o: Organ)
    ensures |Segments(o)| == Denom(o)
    ensures Distinct(Segments(o))
  {
    var segs := Segments(o);
    forall i, j | 0 <= i < j < |segs|
      ensures segs[i] != segs[j]
    {
      if o == SmallBowel && segs[i] == segs[j] {
        BinNameInjective(i + 1, j + 1);
      }
    }
  }
}
