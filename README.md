# Lémann Index scoring engine — a Dafny model

This project models the scoring core of a calculator for the updated Lémann
Index (Pariente et al., Gastroenterology 2021). The index measures cumulative
structural bowel damage in Crohn's disease. A clinician records one
observation per bowel segment. Each observation is graded for stricturing and
penetrating damage (grades 0 to 3) by organ-specific rules. A segment scores
points for its resected percentage and for each positive lesion grade. An
organ's score is its summed segment points divided by a fixed denominator. The
global index is the weighted sum of the four organ scores. Rows live in a
registry that holds at most one row per (organ, segment) pair.

Modules, one per component of the calculator:

- `Tables` (`tables.dfy`): organs, lesion coefficients, global weights,
  segment lists and denominators.
- `Observation` (`observation.dfy`): the stored row, the anus form's
  defaults and the inference of the stricture and penetration flags.
- `Grading` (`grading.dfy`): the stricturing and penetrating grade functions and
  their per-organ dispatch.
- `Scoring` (`scoring.dfy`): segment points, organ scores and the global
  index.
- `SegmentRegistry` (`registry.dfy`): the list of rows as a class with
  `Upsert` and `Delete`, filtering by organ, and the organ and global scores
  of the current rows.

Numbers. Every coefficient is a multiple of 0.5 and every resection
contribution (`resect_pct / 10`) is a whole number of tenths. So segment
points are integers counted in tenths of a point: 3.5 points is 35, and a 40%
resection adds 40. Organ and global scores are exact reals, taken before the
calculator rounds them; the global index here weights the exact organ scores,
not the rounded ones the calculator weights (see "## Left out"). Wall thickness is a `real`.

Rows. The calculator stores every row as a dictionary holding all the
observation keys. The generic form writes every generic field and zero
placeholders for the two anus grades. The anus form writes the two grades and
then the defaults of every other field. The model therefore uses one record
type, `Fields`, in which every field is present.

## Model

| member | source | states |
|---|---|---|
| `Tables.Coef` | app/app.py:15-24 | every coefficient is a multiple of 0.5 point and at most 5.0; a grade with no table entry (outside 1..3) earns nothing |
| `Tables.CoefMonotone` | app/app.py:15-24 | within one organ and lesion category, a higher grade never earns fewer points |
| `Tables.Weight` | app/app.py:26-31 | every organ weight lies between 2.0 and 4.0 (the exact weights are stated by `Scoring.GlobalLiTerms`) |
| `Tables.Denom` | app/app.py:41-46 | every denominator is at least 1, so the division in the organ score is always defined |
| `Tables.BinName` | app/app.py:35 | a small-bowel segment name is `bin_` followed by the two zero-padded decimal digits of the bin number |
| `Tables.Segments` | app/app.py:33-38 | the literal segment lists of the four organs, each as long as the organ's denominator; distinctness is stated by `Tables.SegmentsWellFormed` |
| `Tables.SegmentsWellFormed` | app/app.py:33-46 | each organ lists each segment once, and the organ's denominator equals its number of segments (3, 20, 6, 1) |
| `Observation.AnusEntry` | app/app.py:150-198 | the anus entry keeps both selected grades, sets the stricture flag exactly when the stricturing grade is positive and the penetration flag exactly when the MRI grade is positive, and leaves every generic field at its default |
| `Observation.InferFlags` | app/app.py:334-346 | for a non-anus organ the stricture flag ends up set iff it was ticked or some stricturing finding is present, and the penetration flag iff it was ticked or some penetrating finding is present; no other field changes; anus entries are untouched |
| `Observation.InferFlagsMonotoneIdempotent` | app/app.py:334-346 | inference never clears a flag, and inferring twice equals inferring once |
| `Grading.StrGradeUpperSmallBowel` | app/app.py:203-219 | the grade is in 0..3; it is 3 iff pre-stenotic dilation; at least 2 iff dilation, a wall of 3 mm or more, or mural stratification; at least 1 iff any of those, a thickened wall or segmental enhancement |
| `Grading.StrGradeColon` | app/app.py:221-228 | the grade is in 0..3; it is 3 when lumen reduction exceeds 50%; it is never below the upper/small-bowel grade of the same fields, equals it when there is no lumen reduction, and is 2 (3 with dilation) for a reduction in 1..50% |
| `Grading.PenGradeGeneric` | app/app.py:230-255 | the grade is 0, 2 or 3, never 1; it is 0 whenever the penetration flag is clear; 3 iff the flag is set with a phlegmon or fistula; 2 iff the flag is set with a deep ulcer and neither of those |
| `Grading.AnusGrade` | app/app.py:257-263 | the grade is in 0..3; a stored grade of 1, 2 or 3 passes through; any other stored value, out-of-range ones included, gives 0 |
| `Grading.Grade` | app/app.py:265-270 | every organ's grade functions return a grade in 0..3; a non-anus penetrating grade is never 1 and is 0 when the penetration flag is clear |
| `Grading.UpperSmallBowelStrIgnoresFlags` | app/app.py:203-219 | upper tract and small bowel get the same stricturing grade, and it does not read the stricture flag, the confirmed-stricture box or lumen reduction |
| `Grading.StrGradeMonotoneInThickness` | app/app.py:203-228 | a thicker wall, all else equal, never lowers any organ's stricturing grade |
| `Grading.AnusEntryGrades` | app/app.py:257-263 | an anus entry built from selected grades in 0..3 is graded exactly as selected |
| `Grading.InferredGrades` | app/app.py:334-346 | after flag inference a non-anus entry keeps its stricturing grade, and its penetrating grade follows the findings alone (3 for a phlegmon or fistula, 2 for a deep ulcer, else 0) |
| `Scoring.Clamp` | app/app.py:276 | the resected percentage is brought into 0..100: unchanged inside, 0 below, 100 above |
| `Scoring.ScoreSegment` | app/app.py:273-285 | a segment scores at least its clamped resection and at most that plus the two grade-3 coefficients, so never more than the organ's maximum segment score; the score is never negative |
| `Scoring.ScoreIsTableSum` | app/app.py:279-284 | skipping the lookup for grade 0 changes nothing: the score is the clamped resection plus the table entries of both grades |
| `Scoring.ResectionStep` | app/app.py:275-277 | with lesion grades fixed, 10 more percent resected within 0..100 adds exactly 1.0 point; every percentage above 100 scores as 100 and every percentage below 0 as 0 |
| `Scoring.SumScores` | app/app.py:288 | the summed points of n rows are at most n times the maximum segment score |
| `Scoring.SumScoresPermutation` | app/app.py:288 | the summed points do not depend on the order of the rows |
| `Scoring.OrganLi` | app/app.py:287-290 | an organ with no rows scores 0; every organ score is non-negative |
| `Scoring.OrganLiBound` | app/app.py:287-290 | an organ with no more rows than its denominator scores at most the maximum points of one segment |
| `Scoring.OrganLiPermutation` | app/app.py:287-290 | reordering an organ's rows leaves its score unchanged |
| `Scoring.WeightedSum` | app/app.py:293 | a weighted sum of non-negative organ scores is non-negative |
| `Scoring.GlobalLi` | app/app.py:292-293 | the global index of non-negative organ scores is non-negative |
| `Scoring.GlobalLiTerms` | app/app.py:292-293 | the global index is 2.0 × upper + 4.0 × small bowel + 3.0 × colon and rectum + 2.5 × anus, an organ not supplied contributing nothing |
| `Scoring.GlobalLiRoundingGap` | app/app.py:290-293 | organ scores each within 0.005 of the exact ones (as two-decimal rounding leaves them) move the global index by at most 0.0575 |
| `Scoring.RoundingExample` | app/app.py:287-293 | one upper segment 10% resected: exact organ score 1/3 gives a global index of 2/3, while the organ score rounded to 0.33 gives 0.66 |
| `Scoring.GlobalLiMonotone` | app/app.py:292-293 | raising organ scores never lowers the global index |
| `Scoring.GlobalLiWeight` | app/app.py:292-293 | raising one organ's score by d raises the global index by exactly that organ's weight times d |
| `Scoring.SmallBowelExample` | app/app.py:273-290 | one small-bowel row with a 4 mm wall and nothing else has stricturing grade 2, scores 3.0 points and gives the small bowel 0.15 |
| `Scoring.AnusExample` | app/app.py:273-290 | one anus row with stricturing grade 2 and no penetrating grade scores 2.0 points and gives the anus 2.0 |
| `Scoring.GlobalExample` | app/app.py:292-293 | organ scores 0.0, 0.15, 0.0 and 2.0 give a global index of 5.6 |
| `SegmentRegistry.CountKey` | app/app.py:351-354 | a key is counted zero times exactly when no row carries it |
| `SegmentRegistry.WithoutKey` | app/app.py:351-354 | the filter keeps exactly the rows of other keys, and drops as many rows as carried the key |
| `SegmentRegistry.RowsOf` | app/app.py:387 | the rows selected for an organ are exactly the rows of that organ |
| `SegmentRegistry.UniqueCountAtMostOne` | app/app.py:350-360 | in a list with unique keys a key occurs at most once |
| `SegmentRegistry.WithoutKeyUnique` | app/app.py:351-354 | filtering out a key keeps the remaining keys unique |
| `SegmentRegistry.UpsertedKeyOnce` | app/app.py:350-360 | after an upsert exactly one row carries the key, and it is the new row, in last position |
| `SegmentRegistry.UpsertedKeepsOthers` | app/app.py:350-360 | an upsert leaves the rows of every other key with the same values in the same relative order |
| `SegmentRegistry.UpsertedValid` | app/app.py:350-360 | an upsert keeps keys unique and segments valid; it adds one row for a new key and keeps the row count for an existing key |
| `SegmentRegistry.UpsertedTwice` | app/app.py:350-360 | upserting the same key twice equals upserting the later row once, and the second upsert does not change the row count |
| `SegmentRegistry.RemovedValid` | app/app.py:380-381 | deleting a row keeps keys unique and segments valid, and no row with the deleted row's key remains |
| `SegmentRegistry.RemoveAfterUpsert` | app/app.py:350-381 | deleting the just-upserted row leaves exactly the rows of the other keys, in order, and none with its key |
| `SegmentRegistry.OrganScoreBounded` | app/app.py:385-388 | in a registry with unique keys and valid segments an organ has at most its denominator's number of rows, and its score lies between 0 and one segment's maximum points |
| `SegmentRegistry.Scores` | app/app.py:385-388 | the organ scores cover every organ |
| `SegmentRegistry.GlobalScoreBounded` | app/app.py:385-394 | in a registry with unique keys and valid segments the global index lies between 0 and 209.75 |
| `SegmentRegistry.Registry.constructor` | app/app.py:49-50 | a new registry is empty and valid |
| `SegmentRegistry.Registry.Upsert` | app/app.py:349-360 | saving an entry keeps keys unique and segments valid, makes the list the old list without that key followed by the new row, and grows the list only for a new key |
| `SegmentRegistry.Registry.Delete` | app/app.py:380-381 | deleting position i removes exactly that row, keeps the others in order, keeps the registry valid, and leaves no row with the deleted key |
| `SegmentRegistry.Registry.OrganScores` | app/app.py:385-388 | every organ gets the score of its own rows |
| `SegmentRegistry.Registry.GlobalScore` | app/app.py:394 | the global index is that of the current exact (unrounded) organ scores and lies between 0 and 209.75 |

## Left out

- Rounding: `round(x, 2)` on binary floats (app/app.py:290, 293) is not modelled; organ scores are the exact values before rounding.
- SegmentRegistry.Registry.GlobalScore: weights the exact organ scores, whereas the calculator stores each organ score already rounded to two decimals (app/app.py:290, 388) and weights those (app/app.py:293, 394), then rounds again. Before that final rounding the two differ by at most 0.0575 (`Scoring.GlobalLiRoundingGap`), which can change the displayed value: one upper segment 10% resected shows 0.66 in the calculator against 2/3 here (`Scoring.RoundingExample`).
- Floating point: points are exact tenths and scores exact reals, so binary-float representation error in `resect_pct / 10.0` and in the sums is not modelled.
- Tables.Weight: its own contract only bounds the weights; their exact values are stated by `Scoring.GlobalLiTerms`.
- The widgets, layout, buttons, reruns, the `form_prefill`/`form_nonce` refresh bookkeeping and the session-state plumbing (app/app.py:49-145, 300-332, 365-395) are user interface; the registry is an explicitly owned object instead.
- Widget bounds (wall thickness 0..30 in steps of 0.5, percentages 0..100 in steps of 5) are not imposed: the grade functions accept any real thickness and any integer percentage, which covers every value the widgets produce.
- The select-box labels of the anus grades and their parsing with `split(":")` (app/app.py:152-182) are presentation; the anus grades are integers. The generic form's zero placeholders for the anus grades (app/app.py:146-148) are only ever read by the anus grade functions, so they are not modelled separately.
- The `setdefault` loop over the anus defaults (app/app.py:197-198) writes keys that the anus form has not written before it, so `Observation.AnusEntry` writes each default directly instead of looping.
- Patient-ID entry and its case-insensitive uniqueness check (app/app.py:296-297, 398-413) and the results table, CSV download, server-side save and delete (app/app.py:416-453) are persistence and I/O.
- The `DENOM.get(..., len(SEGMENTS[organ]))` fallback and the `if denom else 0.0` branch (app/app.py:289-290) are unreachable: every organ has a non-zero denominator (`Tables.Denom`).
- Segment validity: the calculator does not check the segment on saving; the select box only offers the organ's own segments. `Registry.Upsert` therefore requires a valid segment rather than modelling a rejection.
- Deletion is by position in the list, as the calculator's delete button does (app/app.py:381), not by (organ, segment) key.
- The global index sums the supplied organ scores in dictionary order; the model sums over the four organs in listed order with an absent organ contributing 0, which is the same exact sum.
