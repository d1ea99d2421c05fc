/**
 * The risk-assessments page: a search box and division/team selects narrow
 * the assessment list, and each remaining card shows its product, division
 * and team by name.
 */
module RiskAssessmentsPage {
  import opened JsValues
  import opened JsStrings
  import opened JsArrays
  import opened Schema
  import opened Records
  import opened ServiceDetails

  const ALL := "all"
  const UNKNOWN_SERVICE := "Unknown Service"

  /** `x.toLowerCase().includes(term.toLowerCase())` */
  predicate ContainsIgnoringCase(x: string, term: string) {
    Includes(Lower(x), Lower(term))
  }

  /** The search box: the product name, the category or the description contains the term. */
  predicate MatchesSearch(service: ServiceRow, a: RiskAssessment, term: string) {
    || ContainsIgnoringCase(service.name, term)
    || ContainsIgnoringCase(a.riskCategory, term)
    || ContainsIgnoringCase(a.riskDescription, term)
  }

  /** A select left at "all" passes everything; otherwise the column must equal the chosen id. */
  predicate MatchesSelect(selected: string, column: Option<string>) {
    selected == ALL || column == Some(selected)
  }

  /** The test the page's `filter` applies to one assessment. */
  predicate Keep(a: RiskAssessment, services: seq<ServiceRow>, term: string, division: string, team: string) {
    match FindService(services, a.serviceId)
    case None => false
    case Some(s) => MatchesSearch(s, a, term) && MatchesSelect(division, s.division_id) && MatchesSelect(team, s.team_id)
  }

  /** What `Keep` decides, stated through the assessment's first matching product. */
  ghost predicate Qualifies(a: RiskAssessment, services: seq<ServiceRow>, term: string, division: string, team: string) {
    exists i :: IsFirstService(services, a.serviceId, i)
      && MatchesSearch(services[i], a, term)
      && MatchesSelect(division, services[i].division_id)
      && MatchesSelect(team, services[i].team_id)
  }

  lemma KeepIffQualifies(a: RiskAssessment, services: seq<ServiceRow>, term: string, division: string, team: string)
    ensures Keep(a, services, term, division, team) <==> Qualifies(a, services, term, division, team)
  {
    var f := FindService(services, a.serviceId);
    if Qualifies(a, services, term, division, team) {
      var i :| IsFirstService(services, a.serviceId, i)
        && MatchesSearch(services[i], a, term)
        && MatchesSelect(division, services[i].division_id)
        && MatchesSelect(team, services[i].team_id);
      assert f == Some(services[i]);
    }
  }

  /** `filteredAssessments` */
  function FilterAssessments(assessments: seq<RiskAssessment>, services: seq<ServiceRow>, term: string,
                             division: string, team: string): (r: seq<RiskAssessment>)
    ensures IsSubsequence(r, assessments)
    ensures forall x | x in r :: x in assessments && Qualifies(x, services, term, division, team)
    ensures forall x | x in assessments && Qualifies(x, services, term, division, team) ::
              multiset(r)[x] == multiset(assessments)[x]
  {
    var keep := (a: RiskAssessment) => Keep(a, services, term, division, team);
    var r := Filter(assessments, keep);
    forall x | x in r ensures Qualifies(x, services, term, division, team) {
      KeepIffQualifies(x, services, term, division, team);
    }
    forall x | x in assessments && Qualifies(x, services, term, division, team)
      ensures multiset(r)[x] == multiset(assessments)[x]
    {
      KeepIffQualifies(x, services, term, division, team);
    }
    r
  }

  /** An assessment whose product does not exist never reaches the list. */
  lemma UnresolvableDropped(assessments: seq<RiskAssessment>, services: seq<ServiceRow>, term: string,
                            division: string, team: string, a: RiskAssessment)
    requires forall i | 0 <= i < |services| :: Val(services[i].id) != a.serviceId
    ensures a !in FilterAssessments(assessments, services, term, division, team)
  {
  }

  /** With both selects at "all", an assessment is kept exactly when its product exists and the search matches. */
  lemma SearchOnly(assessments: seq<RiskAssessment>, services: seq<ServiceRow>, term: string, a: RiskAssessment)
    requires a in assessments
    ensures a in FilterAssessments(assessments, services, term, ALL, ALL) <==>
            exists i :: IsFirstService(services, a.serviceId, i) && MatchesSearch(services[i], a, term)
  {
    var r := FilterAssessments(assessments, services, term, ALL, ALL);
    if exists i :: IsFirstService(services, a.serviceId, i) && MatchesSearch(services[i], a, term) {
      assert Qualifies(a, services, term, ALL, ALL);
      assert multiset(r)[a] == multiset(assessments)[a];
    }
  }

  /** The empty search term with both selects at "all" keeps exactly the assessments whose product exists. */
  lemma EmptyTermKeepsResolvable(assessments: seq<RiskAssessment>, services: seq<ServiceRow>, a: RiskAssessment)
    requires a in assessments
    ensures a in FilterAssessments(assessments, services, "", ALL, ALL) <==>
            exists i | 0 <= i < |services| :: Val(services[i].id) == a.serviceId
  {
    SearchOnly(assessments, services, "", a);
    var f := FindService(services, a.serviceId);
    if f.Some? {
      IncludesEmpty(Lower(f.value.name));
    }
  }

  /** A chosen division or team keeps only assessments whose product carries that id. */
  lemma SelectsRestrict(assessments: seq<RiskAssessment>, services: seq<ServiceRow>, term: string,
                        division: string, team: string, a: RiskAssessment)
    requires a in FilterAssessments(assessments, services, term, division, team)
    ensures exists i :: IsFirstService(services, a.serviceId, i)
              && (division != ALL ==> services[i].division_id == Some(division))
              && (team != ALL ==> services[i].team_id == Some(team))
  {
  }

  /** The search is case-insensitive: re-casing the term changes nothing. */
  lemma SearchIgnoresCase(assessments: seq<RiskAssessment>, services: seq<ServiceRow>, t1: string, t2: string,
                          division: string, team: string)
    requires SameUpToCase(t1, t2)
    ensures FilterAssessments(assessments, services, t1, division, team)
            == FilterAssessments(assessments, services, t2, division, team)
  {
    LowerIgnoresCase(t1, t2);
    FilterSameTest(assessments, (a: RiskAssessment) => Keep(a, services, t1, division, team),
                   (a: RiskAssessment) => Keep(a, services, t2, division, team));
  }

  /** The three names in a card's header. */
  datatype CardHeading = CardHeading(service: string, division: string, team: string)

  /** The header of an assessment's card: each lookup that misses shows its own sentinel. */
  function CardHeader(a: RiskAssessment, services: seq<ServiceRow>, divisions: seq<DivisionRow>,
                      teams: seq<TeamRow>): (r: CardHeading)
    ensures (forall i | 0 <= i < |services| :: Val(services[i].id) != a.serviceId) ==>
              r == CardHeading(UNKNOWN_SERVICE, UNKNOWN_DIVISION, UNKNOWN_TEAM)
    ensures forall i | IsFirstService(services, a.serviceId, i) ::
              && r.service == (if services[i].name == "" then UNKNOWN_SERVICE else services[i].name)
              && r.division == DivisionNameOr(divisions, FromColumn(services[i].division_id), UNKNOWN_DIVISION)
              && r.team == TeamNameOr(teams, FromColumn(services[i].team_id), UNKNOWN_TEAM)
  {
    var service := FindService(services, a.serviceId);
    var divisionKey := if service.Some? then FromColumn(service.value.division_id) else Undefined;
    var teamKey := if service.Some? then FromColumn(service.value.team_id) else Undefined;
    CardHeading(
      if service.Some? then StringOr(Val(service.value.name), UNKNOWN_SERVICE) else UNKNOWN_SERVICE,
      DivisionNameOr(divisions, divisionKey, UNKNOWN_DIVISION),
      TeamNameOr(teams, teamKey, UNKNOWN_TEAM))
  }

  /**
   * For an assessment whose product exists under a non-empty name, the card
   * header shows the same three names as the product-details resolver.
   */
  lemma CardHeaderAgreesWithProductDetails(a: RiskAssessment, services: seq<ServiceRow>, divisions: seq<DivisionRow>,
                                          teams: seq<TeamRow>, i: int)
    requires IsFirstService(services, a.serviceId, i) && services[i].name != ""
    ensures var h := CardHeader(a, services, divisions, teams);
            var d := GetProductDetails(services[i].id, services, divisions, teams);
            h.service == d.name && h.division == d.division && h.team == d.team
  {
  }
}
