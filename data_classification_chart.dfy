/** The bar chart of data classifications: one bar per classification that occurs, with its count. */
module DataClassificationChart {
  import opened JsStrings
  import opened JsArrays
  import opened Records
  import opened ChartCounts

  /** One `{ classification, count }` of the chart's data. */
  datatype ClassificationBar = ClassificationBar(classification: string, count: nat)

  function ClassificationOf(a: RiskAssessment): string { a.dataClassification }

  function Classifications(assessments: seq<RiskAssessment>): seq<string> {
    KeysBy(assessments, ClassificationOf)
  }

  function ToBars(entries: seq<Entry>): (r: seq<ClassificationBar>)
    ensures |r| == |entries|
    ensures forall i | 0 <= i < |entries| :: r[i] == ClassificationBar(entries[i].key, entries[i].count)
  {
    if entries == [] then [] else [ClassificationBar(entries[0].key, entries[0].count)] + ToBars(entries[1..])
  }

  /** The chart data. */
  function ClassificationBars(assessments: seq<RiskAssessment>): seq<ClassificationBar> {
    ToBars(Distribution(Classifications(assessments)))
  }

  /** `distribution` and `data` as the component computes them. */
  method DataClassificationDistribution(assessments: seq<RiskAssessment>) returns (data: seq<ClassificationBar>)
    ensures data == ClassificationBars(assessments)
  {
    var entries := Entries(Classifications(assessments));
    data := ToBars(entries);
  }

  function BarCount(b: ClassificationBar): int { b.count }

  lemma {:induction false} BarsSum(entries: seq<Entry>)
    ensures SumBy(ToBars(entries), BarCount) == SumBy(entries, EntryCount)
  {
    if entries != [] {
      BarsSum(entries[1..]);
      assert ToBars(entries)[1..] == ToBars(entries[1..]);
    }
  }

  /** The counts add up to the number of assessments. */
  lemma BarsTotal(assessments: seq<RiskAssessment>)
    ensures SumBy(ClassificationBars(assessments), BarCount) == |assessments|
  {
    BarsSum(Distribution(Classifications(assessments)));
    TotalCount(Classifications(assessments));
  }

  /** A bar's count is the number of assessments with its classification, and at least one. */
  lemma BarCounts(assessments: seq<RiskAssessment>, i: int)
    requires 0 <= i < |ClassificationBars(assessments)|
    ensures var b := ClassificationBars(assessments)[i];
            b.count == |Filter(assessments, HasKey(ClassificationOf, b.classification))| >= 1
  {
    DistributionCounts(Classifications(assessments));
    CountsAreGroupSizes(assessments, ClassificationOf, ClassificationBars(assessments)[i].classification);
  }

  /** Exactly the classification values that occur get a bar, and none gets two. */
  lemma BarsPerClassification(assessments: seq<RiskAssessment>, c: string)
    ensures (exists i | 0 <= i < |ClassificationBars(assessments)| :: ClassificationBars(assessments)[i].classification == c)
            <==> exists k | 0 <= k < |assessments| :: assessments[k].dataClassification == c
    ensures forall i, j | 0 <= i < j < |ClassificationBars(assessments)| ::
              ClassificationBars(assessments)[i].classification != ClassificationBars(assessments)[j].classification
  {
    var keys := Classifications(assessments);
    DistributionKeys(keys, c);
    DistributionDistinctKeys(keys);
    assert |ClassificationBars(assessments)| == |Distribution(keys)|;
    if exists k | 0 <= k < |assessments| :: assessments[k].dataClassification == c {
      var k :| 0 <= k < |assessments| && assessments[k].dataClassification == c;
      assert keys[k] == c;
    }
  }

  /** Without numeric-looking classification values, the bars follow the order in which the values first occur. */
  lemma BarsInFirstSeenOrder(assessments: seq<RiskAssessment>)
    requires forall k | 0 <= k < |assessments| :: !IsArrayIndex(assessments[k].dataClassification)
    ensures |ClassificationBars(assessments)| == |FirstSeen(Classifications(assessments))|
    ensures forall i | 0 <= i < |ClassificationBars(assessments)| ::
              ClassificationBars(assessments)[i].classification == FirstSeen(Classifications(assessments))[i]
  {
    FirstSeenOrder(Classifications(assessments));
  }
}
