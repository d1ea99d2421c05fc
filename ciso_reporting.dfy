/**
 * The CISO report for one fixed division and team ("B2B" / "Zeus"): the
 * products resolving to both, their assessments, and the metrics computed
 * from those assessments. Until there are relevant assessments the report
 * shows built-in sample values. "Now" is a parameter in milliseconds.
 */
module CisoReporting {
  import opened JsValues
  import opened JsStrings
  import opened JsArrays
  import opened Schema
  import opened Records
  import opened ServiceDetails

  const DIVISION := "B2B"
  const TEAM := "Zeus"
  const MS_PER_DAY := 1000 * 60 * 60 * 24

  datatype Metrics = Metrics(
    numberOfProducts: int,
    globalRevenueRisks: int,
    localRevenueRisks: int,
    customRisks: int,
    daysSinceLastAssessment: int,
    risksWithoutControls: int,
    medianRecoveryTime: real,
    piRiskScore: int,
    estimatedGlobalRevenueRisk: string,
    estimatedLocalRevenueRisk: string)

  /** The sample values shown before any relevant assessment exists. */
  const INITIAL_METRICS := Metrics(12, 3, 7, 13, 14, 23, 24.0, 78, "900k €", "400k €")

  // Which products and assessments the report covers

  /** The product's details resolve to the report's division and team. */
  predicate InScope(p: Service, rows: seq<ServiceRow>, divisions: seq<DivisionRow>, teams: seq<TeamRow>) {
    var d := GetProductDetails(p.id, rows, divisions, teams);
    d.division == DIVISION && d.team == TEAM
  }

  function InScopeTest(rows: seq<ServiceRow>, divisions: seq<DivisionRow>, teams: seq<TeamRow>): Service -> bool {
    (p: Service) => InScope(p, rows, divisions, teams)
  }

  function ScopedProducts(products: seq<Service>, rows: seq<ServiceRow>, divisions: seq<DivisionRow>,
                          teams: seq<TeamRow>): seq<Service> {
    Filter(products, InScopeTest(rows, divisions, teams))
  }

  function RefersTest(scoped: seq<Service>): RiskAssessment -> bool {
    (a: RiskAssessment) => RefersToAny(a, scoped)
  }

  /** `divisionProductIds.includes(a.serviceId)`: a missing reference is never included. */
  predicate RefersToAny(a: RiskAssessment, scoped: seq<Service>) {
    exists i | 0 <= i < |scoped| :: Val(scoped[i].id) == a.serviceId
  }

  function RelevantAssessments(assessments: seq<RiskAssessment>, scoped: seq<Service>): seq<RiskAssessment> {
    Filter(assessments, RefersTest(scoped))
  }

  /**
   * An assessment is covered exactly when it refers to a listed product whose
   * row resolves to division "B2B" and team "Zeus".
   */
  lemma RelevantIff(assessments: seq<RiskAssessment>, products: seq<Service>, rows: seq<ServiceRow>,
                    divisions: seq<DivisionRow>, teams: seq<TeamRow>, a: RiskAssessment)
    requires a in assessments
    ensures a in RelevantAssessments(assessments, ScopedProducts(products, rows, divisions, teams)) <==>
            exists p | p in products :: Val(p.id) == a.serviceId && InScope(p, rows, divisions, teams)
  {
    var scoped := ScopedProducts(products, rows, divisions, teams);
    RefersIff(assessments, scoped, a);
    if exists p | p in products :: Val(p.id) == a.serviceId && InScope(p, rows, divisions, teams) {
      var p :| p in products && Val(p.id) == a.serviceId && InScope(p, rows, divisions, teams);
      ScopedIff(products, rows, divisions, teams, p);
    }
    if exists p | p in scoped :: Val(p.id) == a.serviceId {
      var p :| p in scoped && Val(p.id) == a.serviceId;
      ScopedIff(products, rows, divisions, teams, p);
    }
  }

  lemma ScopedIff(products: seq<Service>, rows: seq<ServiceRow>, divisions: seq<DivisionRow>, teams: seq<TeamRow>,
                  p: Service)
    ensures p in ScopedProducts(products, rows, divisions, teams) <==> p in products && InScope(p, rows, divisions, teams)
  {
    var f := InScopeTest(rows, divisions, teams);
    var scoped := Filter(products, f);
    if p in products && f(p) {
      assert multiset(scoped)[p] == multiset(products)[p] > 0;
    }
  }

  lemma RefersIff(assessments: seq<RiskAssessment>, scoped: seq<Service>, a: RiskAssessment)
    requires a in assessments
    ensures a in RelevantAssessments(assessments, scoped) <==> exists p | p in scoped :: Val(p.id) == a.serviceId
  {
    var f := RefersTest(scoped);
    var relevant := Filter(assessments, f);
    if exists p | p in scoped :: Val(p.id) == a.serviceId {
      var p :| p in scoped && Val(p.id) == a.serviceId;
      var i :| 0 <= i < |scoped| && scoped[i] == p;
      assert f(a);
      assert multiset(relevant)[a] == multiset(assessments)[a] > 0;
    }
    if a in relevant {
      assert f(a);
      var i :| 0 <= i < |scoped| && Val(scoped[i].id) == a.serviceId;
      assert scoped[i] in scoped;
    }
  }

  // The individual metrics

  const STANDARD_CATEGORIES := ["Error", "Failure", "Malicious"]

  /** A risk is custom when its category is not one of the three standard ones. */
  predicate IsCustom(a: RiskAssessment) {
    a.riskCategory !in STANDARD_CATEGORIES
  }

  predicate HasGlobalImpact(a: RiskAssessment) { TruthyBool(a.hasGlobalRevenueImpact) }
  predicate HasLocalImpact(a: RiskAssessment) { TruthyBool(a.hasLocalRevenueImpact) }

  /** No mitigation, an empty one, or one made of white space only. */
  predicate LacksControls(a: RiskAssessment) {
    !TruthyString(a.mitigation) || Trim(a.mitigation.value) == ""
  }

  lemma LacksControlsIff(a: RiskAssessment)
    ensures LacksControls(a) <==> !a.mitigation.Val? || forall i | 0 <= i < |a.mitigation.value| :: IsJsSpace(a.mitigation.value[i])
  {
    if a.mitigation.Val? {
      TrimEmptyIffBlank(a.mitigation.value);
    }
  }

  function Count(assessments: seq<RiskAssessment>, p: RiskAssessment -> bool): (n: int)
    ensures 0 <= n <= |assessments|
  {
    |Filter(assessments, p)|
  }

  /** `hours !== undefined`: set hours and `null` hours pass, `undefined` ones do not. */
  predicate HasHours(a: RiskAssessment) {
    !a.hoursToRemediate.Undefined?
  }

  /** `hours || 0` */
  function HoursOrZero(a: RiskAssessment): int {
    if a.hoursToRemediate.Val? then a.hoursToRemediate.value else 0
  }

  /**
   * The remediation hours kept by `hours !== undefined`, in assessment order,
   * each `null` read as 0 by the `|| 0` of the sort and the median.
   */
  function RemediationTimes(assessments: seq<RiskAssessment>): (r: seq<int>)
    ensures |r| <= |assessments|
  {
    if assessments == [] then []
    else
      var h := assessments[0].hoursToRemediate;
      var rest := RemediationTimes(assessments[1..]);
      match h
      case Undefined => rest
      case Null => [0] + rest
      case Val(n) => [n] + rest
  }

  /** The time one assessment contributes: its hours, 0 for `null`, none for `undefined`. */
  function TimeOf(a: RiskAssessment): seq<int> {
    if HasHours(a) then [HoursOrZero(a)] else []
  }

  lemma RemediationTimesCons(s: seq<RiskAssessment>)
    requires s != []
    ensures RemediationTimes(s) == TimeOf(s[0]) + RemediationTimes(s[1..])
  {
  }

  /** The times are the hours of the assessments that pass `hours !== undefined`, in order, `null` as 0. */
  lemma {:induction false} RemediationTimesKept(assessments: seq<RiskAssessment>)
    ensures var kept := Filter(assessments, HasHours);
            && |RemediationTimes(assessments)| == |kept|
            && forall k | 0 <= k < |kept| :: RemediationTimes(assessments)[k] == HoursOrZero(kept[k])
  {
    if assessments != [] {
      var a := assessments[0];
      var rest := assessments[1..];
      RemediationTimesKept(rest);
      RemediationTimesCons(assessments);
      FilterCons(assessments, HasHours);
      var kept := Filter(assessments, HasHours);
      var keptRest := Filter(rest, HasHours);
      var times := RemediationTimes(assessments);
      var timesRest := RemediationTimes(rest);
      if HasHours(a) {
        HoursPrepend(a, keptRest, timesRest);
      }
    }
  }

  lemma HoursPrepend(a: RiskAssessment, kept: seq<RiskAssessment>, times: seq<int>)
    requires |times| == |kept| && forall k | 0 <= k < |kept| :: times[k] == HoursOrZero(kept[k])
    ensures var kept' := [a] + kept;
            var times' := [HoursOrZero(a)] + times;
            forall k | 0 <= k < |kept'| :: times'[k] == HoursOrZero(kept'[k])
  {
  }

  lemma {:induction false} RemediationTimesConcat(s: seq<RiskAssessment>, t: seq<RiskAssessment>)
    ensures RemediationTimes(s + t) == RemediationTimes(s) + RemediationTimes(t)
  {
    if s != [] {
      assert (s + t)[0] == s[0] && (s + t)[1..] == s[1..] + t;
      RemediationTimesConcat(s[1..], t);
      RemediationTimesCons(s + t);
      RemediationTimesCons(s);
    } else {
      assert s + t == t;
    }
  }

  function Identity(n: int): int { n }

  /** The median of the times: 0 for none, the middle one for an odd count, the mean of the two middle ones otherwise. */
  function Median(times: seq<int>): (m: real)
    ensures times == [] ==> m == 0.0
    ensures times != [] ==>
              exists i, j | 0 <= i < |times| && 0 <= j < |times| :: times[i] as real <= m <= times[j] as real
  {
    var sorted := SortBy(times, Identity);
    var mid := |sorted| / 2;
    if |sorted| == 0 then 0.0
    else
      assert sorted[0] in multiset(times) && sorted[|sorted| - 1] in multiset(times);
      if |sorted| % 2 == 0 then (sorted[mid - 1] + sorted[mid]) as real / 2.0
      else sorted[mid] as real
  }

  /** Every bound on all the times bounds the median. */
  lemma MedianBounds(times: seq<int>, lo: int, hi: int)
    requires times != []
    requires forall i | 0 <= i < |times| :: lo <= times[i] <= hi
    ensures lo as real <= Median(times) <= hi as real
  {
  }

  /** The median is the middle element of the ascending order, or the mean of the two middle ones. */
  lemma MedianOfSorted(times: seq<int>)
    requires times != []
    ensures var s := SortBy(times, Identity);
            var mid := |s| / 2;
            && (|s| % 2 == 1 ==> Median(times) == s[mid] as real)
            && (|s| % 2 == 0 ==> Median(times) == (s[mid - 1] + s[mid]) as real / 2.0)
            && multiset(s) == multiset(times)
            && forall i, j | 0 <= i < j < |s| :: s[i] <= s[j]
  {
  }

  /** For four times in ascending order, the median is the mean of the middle two, e.g. 25 for 10, 20, 30, 40. */
  lemma MedianOfFour(t: seq<int>)
    requires |t| == 4 && t[0] <= t[1] <= t[2] <= t[3]
    ensures Median(t) == (t[1] + t[2]) as real / 2.0
  {
    assert forall i | 0 <= i < |t| - 1 :: t[i] <= t[i + 1];
    AlreadySorted(t);
    EvenMedian(t);
  }

  /** For three times in ascending order, the median is the middle one, e.g. 20 for 10, 20, 30. */
  lemma MedianOfThree(t: seq<int>)
    requires |t| == 3 && t[0] <= t[1] <= t[2]
    ensures Median(t) == t[1] as real
  {
    assert forall i | 0 <= i < |t| - 1 :: t[i] <= t[i + 1];
    AlreadySorted(t);
  }

  lemma EvenMedian(t: seq<int>)
    requires |t| % 2 == 0 && |t| > 0 && SortBy(t, Identity) == t
    ensures Median(t) == (t[|t| / 2 - 1] + t[|t| / 2]) as real / 2.0
  {
  }

  lemma AlreadySorted(t: seq<int>)
    requires forall i | 0 <= i < |t| - 1 :: t[i] <= t[i + 1]
    ensures SortBy(t, Identity) == t
  {
    SortedByNeighbours(t);
    SortBySorted(t, Identity);
  }

  lemma {:induction false} SortedByNeighbours(t: seq<int>)
    requires forall i | 0 <= i < |t| - 1 :: t[i] <= t[i + 1]
    ensures SortedBy(t, Identity)
  {
    if t != [] {
      var r := t[1..];
      assert forall i | 0 <= i < |r| - 1 :: r[i] <= r[i + 1] by {
        forall i | 0 <= i < |r| - 1 ensures r[i] <= r[i + 1] {
          assert r[i] == t[i + 1] && r[i + 1] == t[i + 2];
        }
      }
      SortedByNeighbours(r);
      forall i, j | 0 <= i < j < |t| ensures t[i] <= t[j] {
        if i > 0 {
          assert t[i] == r[i - 1] && t[j] == r[j - 1];
        } else {
          assert t[0] <= t[1];
          if j > 1 {
            assert t[1] == r[0] && t[j] == r[j - 1];
          }
        }
      }
    }
  }

  /**
   * Hours left `null` are indistinguishable from 0 hours, so they pull the
   * median down; hours left `undefined` are as if the assessment were absent.
   */
  lemma NullHoursCountAsZero(assessments: seq<RiskAssessment>, i: int)
    requires 0 <= i < |assessments|
    ensures assessments[i].hoursToRemediate.Null? ==>
              RemediationTimes(assessments)
              == RemediationTimes(assessments[i := assessments[i].(hoursToRemediate := Val(0))])
    ensures assessments[i].hoursToRemediate.Undefined? ==>
              RemediationTimes(assessments) == RemediationTimes(assessments[..i] + assessments[i + 1..])
  {
    var a := assessments;
    var b := a[i := a[i].(hoursToRemediate := Val(0))];
    assert a == a[..i] + [a[i]] + a[i + 1..];
    assert b == a[..i] + [b[i]] + a[i + 1..];
    RemediationTimesConcat(a[..i] + [a[i]], a[i + 1..]);
    RemediationTimesConcat(a[..i], [a[i]]);
    RemediationTimesConcat(a[..i] + [b[i]], a[i + 1..]);
    RemediationTimesConcat(a[..i], [b[i]]);
    RemediationTimesConcat(a[..i], a[i + 1..]);
  }

  /** The points one assessment adds to the PI risk score. */
  function PiPoints(a: RiskAssessment): (n: int)
    ensures 0 <= n <= 100
    ensures a.piDataAtRisk != "yes" ==> n == 0
    ensures a.piDataAtRisk == "yes" ==> n >= 5
  {
    if a.piDataAtRisk != "yes" then 0
    else if a.piDataAmount == Val("more_than_99m") then 100
    else if a.piDataAmount == Val("between_1m_and_99m") then 50
    else if a.piDataAmount == Val("less_than_1m") then 10
    else 5
  }

  function PiRiskScore(assessments: seq<RiskAssessment>): int {
    SumBy(assessments, PiPoints)
  }

  /** The score is at most 100 per assessment and never negative. */
  lemma PiRiskScoreBounds(assessments: seq<RiskAssessment>)
    ensures 0 <= PiRiskScore(assessments) <= 100 * |assessments|
  {
    SumByBounds(assessments, PiPoints, 0, 100);
  }

  /** The score of a concatenation is the sum of the scores. */
  lemma PiRiskScoreAdditive(a: seq<RiskAssessment>, b: seq<RiskAssessment>)
    ensures PiRiskScore(a + b) == PiRiskScore(a) + PiRiskScore(b)
  {
    SumByConcat(a, b, PiPoints);
  }

  /** The newest creation time, or `now` when there is none. */
  function LastAssessmentDate(assessments: seq<RiskAssessment>, now: int): (t: int)
    ensures assessments == [] ==> t == now
    ensures assessments != [] ==> (exists i | 0 <= i < |assessments| :: t == assessments[i].createdAt)
    ensures assessments != [] ==> forall i | 0 <= i < |assessments| :: assessments[i].createdAt <= t
  {
    if assessments == [] then now
    else if |assessments| == 1 then assessments[0].createdAt
    else
      var rest := LastAssessmentDate(assessments[1..], now);
      if assessments[0].createdAt >= rest then assessments[0].createdAt else rest
  }

  /** Whole days since the newest assessment, rounded down. */
  function DaysSinceLastAssessment(assessments: seq<RiskAssessment>, now: int): (d: int)
    ensures (forall i | 0 <= i < |assessments| :: assessments[i].createdAt <= now) ==> d >= 0
    ensures assessments != [] ==>
              d * MS_PER_DAY <= now - LastAssessmentDate(assessments, now) < (d + 1) * MS_PER_DAY
  {
    (now - LastAssessmentDate(assessments, now)) / MS_PER_DAY
  }

  /** The metrics the report computes, or nothing when it keeps what it shows. */
  function ComputeMetrics(assessments: seq<RiskAssessment>, products: seq<Service>, rows: seq<ServiceRow>,
                          divisions: seq<DivisionRow>, teams: seq<TeamRow>, now: int): (r: Option<Metrics>)
    ensures r.None? <==>
              || assessments == [] || products == []
              || RelevantAssessments(assessments, ScopedProducts(products, rows, divisions, teams)) == []
    ensures r.Some? ==>
              var relevant := RelevantAssessments(assessments, ScopedProducts(products, rows, divisions, teams));
              && r.value.numberOfProducts <= |products|
              && 0 <= r.value.globalRevenueRisks <= |relevant|
              && 0 <= r.value.localRevenueRisks <= |relevant|
              && 0 <= r.value.customRisks <= |relevant|
              && 0 <= r.value.risksWithoutControls <= |relevant|
              && 0 <= r.value.piRiskScore <= 100 * |relevant|
              && r.value.estimatedGlobalRevenueRisk == "900k €"
              && r.value.estimatedLocalRevenueRisk == "400k €"
  {
    if assessments == [] || products == [] then None
    else
      var scoped := ScopedProducts(products, rows, divisions, teams);
      var relevant := RelevantAssessments(assessments, scoped);
      if relevant == [] then None
      else
        PiRiskScoreBounds(relevant);
        Some(Metrics(
          numberOfProducts := |scoped|,
          globalRevenueRisks := Count(relevant, HasGlobalImpact),
          localRevenueRisks := Count(relevant, HasLocalImpact),
          customRisks := Count(relevant, IsCustom),
          daysSinceLastAssessment := DaysSinceLastAssessment(relevant, now),
          risksWithoutControls := Count(relevant, LacksControls),
          medianRecoveryTime := Median(RemediationTimes(relevant)),
          piRiskScore := PiRiskScore(relevant),
          estimatedGlobalRevenueRisk := "900k €",
          estimatedLocalRevenueRisk := "400k €"))
  }

  /** The report's `metrics` state. */
  class CisoReport {
    var metrics: Metrics

    constructor()
      ensures metrics == INITIAL_METRICS
    {
      metrics := INITIAL_METRICS;
    }

    /** The effect that runs when the fetched lists change: it overwrites the metrics only when there is data. */
    method Refresh(assessments: seq<RiskAssessment>, products: seq<Service>, rows: seq<ServiceRow>,
                   divisions: seq<DivisionRow>, teams: seq<TeamRow>, now: int)
      modifies this
      ensures var r := ComputeMetrics(assessments, products, rows, divisions, teams, now);
              metrics == if r.Some? then r.value else old(metrics)
    {
      if |assessments| > 0 && |products| > 0 {
        var scoped := ScopedProducts(products, rows, divisions, teams);
        var relevant := RelevantAssessments(assessments, scoped);
        if |relevant| > 0 {
          metrics := ComputeMetrics(assessments, products, rows, divisions, teams, now).value;
        }
      }
    }
  }

  /** Without relevant assessments the sample values stay on screen. */
  lemma SampleValuesKept(assessments: seq<RiskAssessment>, products: seq<Service>, rows: seq<ServiceRow>,
                         divisions: seq<DivisionRow>, teams: seq<TeamRow>, now: int)
    requires forall i | 0 <= i < |assessments| ::
               !exists p | p in products :: Val(p.id) == assessments[i].serviceId && InScope(p, rows, divisions, teams)
    ensures ComputeMetrics(assessments, products, rows, divisions, teams, now).None?
  {
    var relevant := RelevantAssessments(assessments, ScopedProducts(products, rows, divisions, teams));
    if relevant != [] {
      assert relevant[0] in relevant;
      RelevantIff(assessments, products, rows, divisions, teams, relevant[0]);
      assert false;
    }
  }

  // The financial-loss panel

  datatype LossItem = LossItem(name: string, amount: int, colour: string)

  const FINANCIAL_LOSS_BY_TYPE := [
    LossItem("GDPR Fines", 450000, "#FF6B6B"),
    LossItem("LGPD Fines", 120000, "#FF9E5E"),
    LossItem("CCPA Penalties", 95000, "#FFD166"),
    LossItem("Settlements", 350000, "#4ECDC4"),
    LossItem("Remediation", 280000, "#1A535C"),
    LossItem("Legal Fees", 175000, "#7B68EE"),
    LossItem("Other", 80000, "#9EB0C9")]

  function Amount(item: LossItem): int { item.amount }

  /** The total potential financial loss: the sum of the amounts. */
  function TotalLoss(items: seq<LossItem>): int {
    SumBy(items, Amount)
  }

  lemma TotalOfBuiltInLosses()
    ensures TotalLoss(FINANCIAL_LOSS_BY_TYPE) == 1550000
  {
    var s := FINANCIAL_LOSS_BY_TYPE;
    assert s[6..][1..] == [];
    assert s[5..][1..] == s[6..];
    assert s[4..][1..] == s[5..];
    assert s[3..][1..] == s[4..];
    assert s[2..][1..] == s[3..];
    assert s[1..][1..] == s[2..];
  }
}
