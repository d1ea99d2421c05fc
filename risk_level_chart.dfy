/** The pie chart of risk levels: one slice per level that occurs, named and coloured by level. */
module RiskLevelChart {
  import opened JsValues
  import opened JsStrings
  import opened JsArrays
  import opened Records
  import opened ChartCounts
  import opened RiskLevelBadge

  /** The chart's `COLORS` table, keyed by lower-case level. */
  function Colour(level: string): (r: Option<string>)
    ensures r.Some? <==> IsRiskLevel(level)
  {
    match level
    case "critical" => Some("#ef4444")
    case "high" => Some("#f97316")
    case "medium" => Some("#f59e0b")
    case "low" => Some("#22c55e")
    case _ => None
  }

  /** One `{ name, value }` of the chart's data. */
  datatype Slice = Slice(name: string, value: nat)

  function LevelOf(a: RiskAssessment): string { a.riskLevel }

  function Levels(assessments: seq<RiskAssessment>): seq<string> {
    KeysBy(assessments, LevelOf)
  }

  function ToSlices(entries: seq<Entry>): (r: seq<Slice>)
    ensures |r| == |entries|
    ensures forall i | 0 <= i < |entries| :: r[i] == Slice(Capitalize(entries[i].key), entries[i].count)
  {
    if entries == [] then [] else [Slice(Capitalize(entries[0].key), entries[0].count)] + ToSlices(entries[1..])
  }

  /** The chart data: the level distribution with each level capitalised. */
  function LevelSlices(assessments: seq<RiskAssessment>): seq<Slice> {
    ToSlices(Distribution(Levels(assessments)))
  }

  /** `distribution` and `data` as the component computes them. */
  method LevelDistribution(assessments: seq<RiskAssessment>) returns (data: seq<Slice>)
    ensures data == LevelSlices(assessments)
  {
    var entries := Entries(Levels(assessments));
    data := ToSlices(entries);
  }

  /** A slice's `fill`: the colour of the lower-cased slice name. */
  function Fill(s: Slice): Option<string> {
    Colour(Lower(s.name))
  }

  function SliceValue(s: Slice): int { s.value }

  lemma {:induction false} SlicesSum(entries: seq<Entry>)
    ensures SumBy(ToSlices(entries), SliceValue) == SumBy(entries, EntryCount)
  {
    if entries != [] {
      SlicesSum(entries[1..]);
      assert ToSlices(entries)[1..] == ToSlices(entries[1..]);
    }
  }

  /** The slice values add up to the number of assessments. */
  lemma SlicesTotal(assessments: seq<RiskAssessment>)
    ensures SumBy(LevelSlices(assessments), SliceValue) == |assessments|
  {
    SlicesSum(Distribution(Levels(assessments)));
    TotalCount(Levels(assessments));
  }

  /**
   * Every slice belongs to a level that occurs (at assessment `k`), carries
   * the number of assessments at that level, at least one, and is named by
   * the capitalised level.
   */
  lemma SliceOfLevel(assessments: seq<RiskAssessment>, i: int) returns (k: int)
    requires 0 <= i < |LevelSlices(assessments)|
    ensures 0 <= k < |assessments|
    ensures LevelSlices(assessments)[i].name == Capitalize(assessments[k].riskLevel)
    ensures LevelSlices(assessments)[i].value == Occurrences(Levels(assessments), assessments[k].riskLevel) >= 1
    ensures LevelSlices(assessments)[i].value == |Filter(assessments, HasKey(LevelOf, assessments[k].riskLevel))|
  {
    var levels := Levels(assessments);
    var d := Distribution(levels);
    DistributionCounts(levels);
    DistributionKeys(levels, d[i].key);
    k :| 0 <= k < |levels| && levels[k] == d[i].key;
    CountsAreGroupSizes(assessments, LevelOf, levels[k]);
  }

  /** Every level that occurs has a slice, and only one. */
  lemma OneSlicePerLevel(assessments: seq<RiskAssessment>, k: int)
    requires 0 <= k < |assessments|
    ensures exists i | 0 <= i < |LevelSlices(assessments)| :: LevelSlices(assessments)[i].name == Capitalize(assessments[k].riskLevel)
    ensures forall i, j | 0 <= i < j < |Distribution(Levels(assessments))| ::
              Distribution(Levels(assessments))[i].key != Distribution(Levels(assessments))[j].key
  {
    var levels := Levels(assessments);
    var d := Distribution(levels);
    DistributionKeys(levels, levels[k]);
    DistributionDistinctKeys(levels);
    var i :| 0 <= i < |d| && d[i].key == levels[k];
    assert LevelSlices(assessments)[i].name == Capitalize(assessments[k].riskLevel);
  }

  /** Without numeric-looking levels, the slices follow the order in which the levels first occur. */
  lemma SlicesInFirstSeenOrder(assessments: seq<RiskAssessment>)
    requires forall k | 0 <= k < |assessments| :: !IsArrayIndex(assessments[k].riskLevel)
    ensures |LevelSlices(assessments)| == |FirstSeen(Levels(assessments))|
    ensures forall i | 0 <= i < |LevelSlices(assessments)| ::
              LevelSlices(assessments)[i].name == Capitalize(FirstSeen(Levels(assessments))[i])
  {
    FirstSeenOrder(Levels(assessments));
  }

  /** Each of the four levels gets its own colour back from its slice name. */
  lemma FillOfLevel(level: string, value: nat)
    requires IsRiskLevel(level)
    ensures Fill(Slice(Capitalize(level), value)) == Colour(level)
    ensures Fill(Slice(Capitalize(level), value)).Some?
  {
    LabelRoundTrip(level);
  }
}
