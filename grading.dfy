/** Lesion grades: from the observation fields of one segment to a stricturing
    grade and a penetrating grade in 0..3, chosen per organ. */
module Grading {
  import opened Tables
  import opened Observation

  /** Stricturing grade of the upper tract and of the small bowel (the two
      organs share one rule): 3 with pre-stenotic dilation, else 2 with a wall
      of at least 3 mm or mural stratification, else 1 with a thinner but
      thickened wall or segmental enhancement, else 0. */
  function StrGradeUpperSmallBowel(f: Fields): (g: int)
    ensures 0 <= g <= 3
    ensures g == 3 <==> f.hasPd
    ensures g >= 2 <==> f.hasPd || f.thickMm >= 3.0 || f.muralStrat
    ensures g >= 1 <==> f.hasPd || f.thickMm > 0.0 || f.muralStrat || f.segEnh
  {
    if f.hasPd then 3
    else if f.thickMm >= 3.0 || f.muralStrat then 2
    else if (0.0 < f.thickMm < 3.0) || f.segEnh then 1
    else 0
  }

  /** Stricturing grade of colon and rectum: the upper/small-bowel rule with
      lumen reduction added, which alone gives grade 3 above 50% and grade 2
      between 1% and 50%. */
  function StrGradeColon(f: Fields): (g: int)
    ensures 0 <= g <= 3
    ensures f.lumenRedPct > 50 ==> g == 3
    ensures g >= StrGradeUpperSmallBowel(f)
    ensures f.lumenRedPct <= 0 ==> g == StrGradeUpperSmallBowel(f)
    ensures 0 < f.lumenRedPct <= 50 ==> g == if f.hasPd then 3 else 2
  {
    if f.hasPd || f.lumenRedPct > 50 then 3
    else if f.thickMm >= 3.0 || f.muralStrat || (0 < f.lumenRedPct <= 50) then 2
    else if (0.0 < f.thickMm < 3.0) || f.segEnh then 1
    else 0
  }

  /** Penetrating grade of upper tract, small bowel and colon (one shared rule):
      nothing unless the penetration flag is set; then 3 for a phlegmon or a
      fistula, 2 for deep ulceration, and 0 otherwise. Grade 1 never occurs. */
  function PenGradeGeneric(f: Fields): (g: int)
    ensures g == 0 || g == 2 || g == 3
    ensures !f.hasPen ==> g == 0
    ensures g == 3 <==> f.hasPen && (f.phlegmon || f.anyFistula)
    ensures g == 2 <==> f.hasPen && !f.phlegmon && !f.anyFistula && f.deepUlc
  {
    if !f.hasPen then 0
    else if f.phlegmon || f.anyFistula then 3
    else if f.deepUlc then 2
    else 0
  }

  /** An anus grade is the clinician's stored grade when it is 1, 2 or 3, and 0
      for anything else, out-of-range values included. */
  function AnusGrade(stored: int): (g: int)
    ensures 0 <= g <= 3
    ensures 1 <= stored <= 3 ==> g == stored
    ensures g != 0 ==> g == stored
  {
    if stored in {1, 2, 3} then stored else 0
  }

  /** The grade function chosen for each organ and lesion category. */
  function Grade(o: Organ, l: Lesion, f: Fields): (g: int)
    ensures 0 <= g <= 3
    ensures l == Pen && o != Anus ==> g != 1 && (!f.hasPen ==> g == 0)
  {
    match (o, l)
    case (Upper, Str) => StrGradeUpperSmallBowel(f)
    case (SmallBowel, Str) => StrGradeUpperSmallBowel(f)
    case (ColonRectum, Str) => StrGradeColon(f)
    case (Anus, Str) => AnusGrade(f.anusStrGrade)
    case (Anus, Pen) => AnusGrade(f.anusPenMriGrade)
    case (_, Pen) => PenGradeGeneric(f)
  }

  /** Upper tract and small bowel are graded alike, and their stricturing grade
      reads neither the stricture flag, nor the confirmed-stricture box, nor
      lumen reduction. */
  lemma UpperSmallBowelStrIgnoresFlags(f: Fields, hasStr: bool, stricture: bool, lumen: int)
    ensures Grade(Upper, Str, f) == Grade(SmallBowel, Str, f)
    ensures Grade(Upper, Str, f)
         == Grade(Upper, Str, f.(hasStr := hasStr, stricture := stricture, lumenRedPct := lumen))
  {
  }

  /** A thicker wall, other fields unchanged, never lowers a stricturing grade. */
  lemma StrGradeMonotoneInThickness(o: Organ, f: Fields, t: real, u: real)
    requires t <= u
    ensures Grade(o, Str, f.(thickMm := t)) <= Grade(o, Str, f.(thickMm := u))
  {
  }

  /** The anus form's entry is graded exactly as the clinician selected. */
  lemma AnusEntryGrades(s: int, p: int)
    requires 0 <= s <= 3 && 0 <= p <= 3
    ensures Grade(Anus, Str, AnusEntry(s, p)) == s
    ensures Grade(Anus, Pen, AnusEntry(s, p)) == p
  {
  }

  /** Penetrating grade ignoring the penetration flag. */
  function PenFindingGrade(f: Fields): (g: int)
  {
    if f.phlegmon || f.anyFistula then 3 else if f.deepUlc then 2 else 0
  }

  /** Once the flags have been inferred, the stricturing grade is the one the
      raw entry had, and the penetrating grade follows the findings alone: a
      recorded deep ulcer, phlegmon or fistula is never gated away. */
  lemma InferredGrades(o: Organ, f: Fields)
    requires o != Anus
    ensures Grade(o, Str, InferFlags(o, f)) == Grade(o, Str, f)
    ensures Grade(o, Pen, InferFlags(o, f)) == PenFindingGrade(f)
  {
  }
}
