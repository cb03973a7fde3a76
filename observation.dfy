/** The observation record stored for one segment, and the two ways the entry
    form fills it in: the anus form's defaults and the automatic inference of
    the stricture and penetration flags for the other organs. */
module Observation {
  import opened Tables

  /** The observation fields of one segment. Every row the calculator stores
      carries all of them: the generic form writes every generic field and
      zero placeholders for the two anus grades, and the anus form writes the
      two grades and defaults for everything else. */
  datatype Fields = Fields(
    hasStr: bool,          // stricture present
    thickMm: real,         // bowel wall thickness, millimetres
    segEnh: bool,          // segmental enhancement
    muralStrat: bool,      // mural stratification
    stricture: bool,       // stricture confirmed
    hasPd: bool,           // pre-stenotic dilation
    lumenRedPct: int,      // lumen reduction in percent (read for colon only)
    hasPen: bool,          // penetrating lesion present
    deepUlc: bool,         // deep or transmural ulceration
    phlegmon: bool,        // phlegmon or mass
    anyFistula: bool,      // any fistula
    anusStrGrade: int,     // anus: clinical stricturing grade
    anusPenMriGrade: int   // anus: MRI penetrating grade
  )

  /** A stored row: the segment's identity, its resected percentage and its fields. */
  datatype Row = Row(organ: Organ, segment: string, resectPct: int, feat: Fields)

  /** The generic (non-anus) fields hold their inert defaults. */
  predicate GenericAtDefaults(f: Fields)
  {
    && f.thickMm == 0.0 && !f.segEnh && !f.muralStrat && !f.stricture && !f.hasPd
    && f.lumenRedPct == 0 && !f.deepUlc && !f.phlegmon && !f.anyFistula
  }

  /** The record the anus form produces from the two selected grades: the
      stricture flag is set exactly when a stricturing grade was chosen, the
      penetration flag exactly when an MRI grade was chosen, and every other
      generic field takes its default. */
  function AnusEntry(strGrade: int, penGrade: int): (f: Fields)
    ensures f.anusStrGrade == strGrade && f.anusPenMriGrade == penGrade
    ensures f.hasStr <==> strGrade > 0
    ensures f.hasPen <==> penGrade > 0
    ensures GenericAtDefaults(f)
  {
    Fields(
      hasStr := strGrade > 0,
      thickMm := 0.0, segEnh := false, muralStrat := false, stricture := false,
      hasPd := false, lumenRedPct := 0,
      hasPen := penGrade > 0,
      deepUlc := false, phlegmon := false, anyFistula := false,
      anusStrGrade := strGrade, anusPenMriGrade := penGrade)
  }

  /** Some stricturing finding was recorded besides the flag itself. */
  predicate StrEvidence(f: Fields)
  {
    f.thickMm > 0.0 || f.segEnh || f.muralStrat || f.stricture
  }

  /** Some penetrating finding was recorded besides the flag itself. */
  predicate PenEvidence(f: Fields)
  {
    f.deepUlc || f.phlegmon || f.anyFistula
  }

  /** Before a non-anus entry is saved, the stricture flag is switched on when
      any stricturing finding is present and the penetration flag when any
      penetrating finding is; a flag the user ticked stays on. Anus entries
      pass through untouched. */
  function InferFlags(o: Organ, f: Fields): (g: Fields)
    ensures o == Anus ==> g == f
    ensures o != Anus ==> (g.hasStr <==> f.hasStr || StrEvidence(f))
    ensures o != Anus ==> (g.hasPen <==> f.hasPen || PenEvidence(f))
    ensures g.(hasStr := f.hasStr, hasPen := f.hasPen) == f
  {
    if o == Anus then f
    else f.(hasStr := f.hasStr || StrEvidence(f), hasPen := f.hasPen || PenEvidence(f))
  }

  /** Inference never clears a flag, and applying it twice is the same as once. */
  lemma InferFlagsMonotoneIdempotent(o: Organ, f: Fields)
    ensures f.hasStr ==> InferFlags(o, f).hasStr
    ensures f.hasPen ==> InferFlags(o, f).hasPen
    ensures InferFlags(o, InferFlags(o, f)) == InferFlags(o, f)
  {
  }
}
