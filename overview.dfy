/** The dashboard's four headline numbers. */
module Overview {
  import opened JsValues
  import opened JsArrays
  import opened Schema
  import opened Records
  import opened ServiceDetails

  datatype Headline = Headline(
    totalRisks: nat,
    criticalRisks: nat,
    highRisks: nat,
    servicesWithRisks: nat,
    divisionsWithRisks: nat)

  function LevelIs(level: string): RiskAssessment -> bool {
    (a: RiskAssessment) => a.riskLevel == level
  }

  /** The product references of the assessments, `assessments.map(a => a.serviceId)`. */
  function ServiceRefs(assessments: seq<RiskAssessment>): (r: seq<Nullable<string>>)
    ensures |r| == |assessments|
    ensures forall i | 0 <= i < |assessments| :: r[i] == assessments[i].serviceId
  {
    if assessments == [] then [] else [assessments[0].serviceId] + ServiceRefs(assessments[1..])
  }

  /** `assessments.some(a => a.serviceId === s.id)` */
  predicate HasRisk(assessments: seq<RiskAssessment>, s: ServiceRow) {
    exists i | 0 <= i < |assessments| :: assessments[i].serviceId == Val(s.id)
  }

  /** `services.filter(...).map(s => s.division_id)` */
  function DivisionRefs(services: seq<ServiceRow>): (r: seq<Option<string>>)
    ensures |r| == |services|
    ensures forall i | 0 <= i < |services| :: r[i] == services[i].division_id
  {
    if services == [] then [] else [services[0].division_id] + DivisionRefs(services[1..])
  }

  function ServicesAtRisk(assessments: seq<RiskAssessment>, services: seq<ServiceRow>): seq<ServiceRow> {
    Filter(services, (s: ServiceRow) => HasRisk(assessments, s))
  }

  function ComputeHeadline(assessments: seq<RiskAssessment>, services: seq<ServiceRow>): (h: Headline)
    ensures h.totalRisks == |assessments|
    ensures h.criticalRisks + h.highRisks <= h.totalRisks
    ensures h.servicesWithRisks <= h.totalRisks
    ensures h.servicesWithRisks == 0 <==> assessments == []
    ensures h.divisionsWithRisks <= |services|
  {
    DisjointFilters(assessments, LevelIs("critical"), LevelIs("high"));
    SetOfSize(ServiceRefs(assessments));
    SetOfSize(DivisionRefs(ServicesAtRisk(assessments, services)));
    Headline(
      totalRisks := |assessments|,
      criticalRisks := |Filter(assessments, LevelIs("critical"))|,
      highRisks := |Filter(assessments, LevelIs("high"))|,
      servicesWithRisks := |SetOf(ServiceRefs(assessments))|,
      divisionsWithRisks := |SetOf(DivisionRefs(ServicesAtRisk(assessments, services)))|)
  }

  /** The positions of the assessments at a given level. */
  function AtLevel(assessments: seq<RiskAssessment>, level: string): set<int> {
    set i | 0 <= i < |assessments| && assessments[i].riskLevel == level
  }

  /**
   * The level counts are the numbers of assessments at that level, the
   * product count is the number of distinct product references, and the
   * division count the number of distinct divisions of products with an
   * assessment.
   */
  lemma HeadlineCounts(assessments: seq<RiskAssessment>, services: seq<ServiceRow>)
    ensures var h := ComputeHeadline(assessments, services);
            && h.criticalRisks == |AtLevel(assessments, "critical")|
            && h.highRisks == |AtLevel(assessments, "high")|
            && h.servicesWithRisks == |set i | 0 <= i < |assessments| :: assessments[i].serviceId|
            && h.divisionsWithRisks ==
               |set i | 0 <= i < |services| && HasRisk(assessments, services[i]) :: services[i].division_id|
  {
    var atRisk := set i | 0 <= i < |services| && HasRisk(assessments, services[i]) :: services[i].division_id;
    forall d ensures d in SetOf(DivisionRefs(ServicesAtRisk(assessments, services))) <==> d in atRisk {
      DivisionsWithRisksMeans(assessments, services, d);
    }
    assert SetOf(DivisionRefs(ServicesAtRisk(assessments, services))) == atRisk;
    LevelCount(assessments, "critical");
    LevelCount(assessments, "high");
    assert SetOf(ServiceRefs(assessments)) == set i | 0 <= i < |assessments| :: assessments[i].serviceId;
  }

  lemma LevelCount(assessments: seq<RiskAssessment>, level: string)
    ensures |Filter(assessments, LevelIs(level))| == |AtLevel(assessments, level)|
  {
    FilterLength(assessments, LevelIs(level));
    assert PassingIndices(assessments, LevelIs(level)) == AtLevel(assessments, level);
  }

  /**
   * The division count is over the division ids of existing products that
   * have an assessment; a product without a division contributes `null`,
   * which counts as one more value.
   */
  lemma DivisionsWithRisksMeans(assessments: seq<RiskAssessment>, services: seq<ServiceRow>, d: Option<string>)
    ensures d in SetOf(DivisionRefs(ServicesAtRisk(assessments, services))) <==>
            exists i | 0 <= i < |services| :: services[i].division_id == d && HasRisk(assessments, services[i])
  {
    if exists i | 0 <= i < |services| :: services[i].division_id == d && HasRisk(assessments, services[i]) {
      var i :| 0 <= i < |services| && services[i].division_id == d && HasRisk(assessments, services[i]);
      AtRiskDivisionCounted(assessments, services, i);
    }
    if d in SetOf(DivisionRefs(ServicesAtRisk(assessments, services))) {
      CountedDivisionAtRisk(assessments, services, d);
    }
  }

  lemma AtRiskDivisionCounted(assessments: seq<RiskAssessment>, services: seq<ServiceRow>, i: int)
    requires 0 <= i < |services| && HasRisk(assessments, services[i])
    ensures services[i].division_id in SetOf(DivisionRefs(ServicesAtRisk(assessments, services)))
  {
    var atRisk := ServicesAtRisk(assessments, services);
    assert services[i] in services;
    assert multiset(atRisk)[services[i]] == multiset(services)[services[i]] > 0;
    assert services[i] in atRisk;
    var k :| 0 <= k < |atRisk| && atRisk[k] == services[i];
    assert DivisionRefs(atRisk)[k] == services[i].division_id;
  }

  lemma CountedDivisionAtRisk(assessments: seq<RiskAssessment>, services: seq<ServiceRow>, d: Option<string>)
    requires d in SetOf(DivisionRefs(ServicesAtRisk(assessments, services)))
    ensures exists i | 0 <= i < |services| :: services[i].division_id == d && HasRisk(assessments, services[i])
  {
    var atRisk := ServicesAtRisk(assessments, services);
    var k :| 0 <= k < |atRisk| && DivisionRefs(atRisk)[k] == d;
    assert atRisk[k] in services;
    var i :| 0 <= i < |services| && services[i] == atRisk[k];
    assert services[i].division_id == d && HasRisk(assessments, services[i]);
  }

  /** No two products share an id. */
  predicate UniqueIds(services: seq<ServiceRow>) {
    forall i, j | 0 <= i < j < |services| :: services[i].id != services[j].id
  }

  /** The division of the product an id names, when ids are unique. */
  function DivisionOf(services: seq<ServiceRow>, ref: Nullable<string>): Option<string> {
    match FindService(services, ref)
    case None => None
    case Some(s) => s.division_id
  }

  function DivisionLookup(services: seq<ServiceRow>): Nullable<string> -> Option<string> {
    (ref: Nullable<string>) => DivisionOf(services, ref)
  }

  /** With unique product ids, there are never more divisions at risk than products at risk. */
  lemma DivisionsAtMostServices(assessments: seq<RiskAssessment>, services: seq<ServiceRow>)
    requires UniqueIds(services)
    ensures ComputeHeadline(assessments, services).divisionsWithRisks
            <= ComputeHeadline(assessments, services).servicesWithRisks
  {
    var refs := SetOf(ServiceRefs(assessments));
    var divisions := SetOf(DivisionRefs(ServicesAtRisk(assessments, services)));
    var g := DivisionLookup(services);
    forall d | d in divisions ensures exists ref | ref in refs :: g(ref) == d {
      var ref := AtRiskDivisionHasRef(assessments, services, d);
      assert g(ref) == d;
    }
    CoveredSize(divisions, refs, g);
  }

  /** Every division at risk is the division of some product an assessment refers to. */
  lemma AtRiskDivisionHasRef(assessments: seq<RiskAssessment>, services: seq<ServiceRow>, d: Option<string>)
    returns (ref: Nullable<string>)
    requires UniqueIds(services)
    requires d in SetOf(DivisionRefs(ServicesAtRisk(assessments, services)))
    ensures ref in SetOf(ServiceRefs(assessments)) && DivisionOf(services, ref) == d
  {
    DivisionsWithRisksMeans(assessments, services, d);
    var i :| 0 <= i < |services| && services[i].division_id == d && HasRisk(assessments, services[i]);
    ref := Val(services[i].id);
    assert IsFirstService(services, ref, i);
    var k :| 0 <= k < |assessments| && assessments[k].serviceId == ref;
    assert ServiceRefs(assessments)[k] == ref;
  }
}
