/** The bar chart of risk categories: one bar per category that occurs, with its count. */
module RiskCategoryChart {
  import opened JsStrings
  import opened JsArrays
  import opened Records
  import opened ChartCounts

  /** One `{ category, count }` of the chart's data. */
  datatype CategoryBar = CategoryBar(category: string, count: nat)

  function CategoryOf(a: RiskAssessment): string { a.riskCategory }

  function Categories(assessments: seq<RiskAssessment>): seq<string> {
    KeysBy(assessments, CategoryOf)
  }

  function ToBars(entries: seq<Entry>): (r: seq<CategoryBar>)
    ensures |r| == |entries|
    ensures forall i | 0 <= i < |entries| :: r[i] == CategoryBar(entries[i].key, entries[i].count)
  {
    if entries == [] then [] else [CategoryBar(entries[0].key, entries[0].count)] + ToBars(entries[1..])
  }

  /** The chart data. */
  function CategoryBars(assessments: seq<RiskAssessment>): seq<CategoryBar> {
    ToBars(Distribution(Categories(assessments)))
  }

  /** `distribution` and `data` as the component computes them. */
  method RiskCategoryDistribution(assessments: seq<RiskAssessment>) returns (data: seq<CategoryBar>)
    ensures data == CategoryBars(assessments)
  {
    var entries := Entries(Categories(assessments));
    data := ToBars(entries);
  }

  function BarCount(b: CategoryBar): int { b.count }

  lemma {:induction false} BarsSum(entries: seq<Entry>)
    ensures SumBy(ToBars(entries), BarCount) == SumBy(entries, EntryCount)
  {
    if entries != [] {
      BarsSum(entries[1..]);
      assert ToBars(entries)[1..] == ToBars(entries[1..]);
    }
  }

  /** The counts add up to the number of assessments. */
  lemma BarsTotal(assessments: seq<RiskAssessment>)
    ensures SumBy(CategoryBars(assessments), BarCount) == |assessments|
  {
    BarsSum(Distribution(Categories(assessments)));
    TotalCount(Categories(assessments));
  }

  /** A bar's count is the number of assessments with its category, and at least one. */
  lemma BarCounts(assessments: seq<RiskAssessment>, i: int)
    requires 0 <= i < |CategoryBars(assessments)|
    ensures var b := CategoryBars(assessments)[i];
            b.count == |Filter(assessments, HasKey(CategoryOf, b.category))| >= 1
  {
    DistributionCounts(Categories(assessments));
    CountsAreGroupSizes(assessments, CategoryOf, CategoryBars(assessments)[i].category);
  }

  /** Exactly the category values that occur get a bar, and none gets two. */
  lemma BarsPerCategory(assessments: seq<RiskAssessment>, c: string)
    ensures (exists i | 0 <= i < |CategoryBars(assessments)| :: CategoryBars(assessments)[i].category == c)
            <==> exists k | 0 <= k < |assessments| :: assessments[k].riskCategory == c
    ensures forall i, j | 0 <= i < j < |CategoryBars(assessments)| ::
              CategoryBars(assessments)[i].category != CategoryBars(assessments)[j].category
  {
    var keys := Categories(assessments);
    DistributionKeys(keys, c);
    DistributionDistinctKeys(keys);
    assert |CategoryBars(assessments)| == |Distribution(keys)|;
    if exists k | 0 <= k < |assessments| :: assessments[k].riskCategory == c {
      var k :| 0 <= k < |assessments| && assessments[k].riskCategory == c;
      assert keys[k] == c;
    }
  }

  /** Without numeric-looking category values, the bars follow the order in which the values first occur. */
  lemma BarsInFirstSeenOrder(assessments: seq<RiskAssessment>)
    requires forall k | 0 <= k < |assessments| :: !IsArrayIndex(assessments[k].riskCategory)
    ensures |CategoryBars(assessments)| == |FirstSeen(Categories(assessments))|
    ensures forall i | 0 <= i < |CategoryBars(assessments)| ::
              CategoryBars(assessments)[i].category == FirstSeen(Categories(assessments))[i]
  {
    FirstSeenOrder(Categories(assessments));
  }
}
