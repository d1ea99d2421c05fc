/**
 * Entity resolution over the flat `services`, `divisions` and `teams` lists:
 * a product id or name is joined to its division and team by linear `find`,
 * and every miss becomes a fixed sentinel string.
 */
module ServiceDetails {
  import opened JsValues
  import opened JsStrings
  import opened JsArrays
  import opened Schema

  const UNKNOWN_PRODUCT := "Unknown Product"
  const UNKNOWN_DIVISION := "Unknown Division"
  const UNKNOWN_TEAM := "Unknown Team"

  /** `i` is the division that `divisions.find(d => d.id === key)` returns. */
  predicate IsFirstDivision(divisions: seq<DivisionRow>, key: Nullable<string>, i: int) {
    0 <= i < |divisions| && Val(divisions[i].id) == key && forall j | 0 <= j < i :: Val(divisions[j].id) != key
  }

  predicate IsFirstTeam(teams: seq<TeamRow>, key: Nullable<string>, i: int) {
    0 <= i < |teams| && Val(teams[i].id) == key && forall j | 0 <= j < i :: Val(teams[j].id) != key
  }

  predicate IsFirstService(services: seq<ServiceRow>, key: Nullable<string>, i: int) {
    0 <= i < |services| && Val(services[i].id) == key && forall j | 0 <= j < i :: Val(services[j].id) != key
  }

  /** `divisions.find(d => d.id === key)`; an `undefined` or `null` key matches nothing. */
  function FindDivision(divisions: seq<DivisionRow>, key: Nullable<string>): (r: Option<DivisionRow>)
    ensures r.None? <==> forall i | 0 <= i < |divisions| :: Val(divisions[i].id) != key
    ensures forall i | IsFirstDivision(divisions, key, i) :: r == Some(divisions[i])
    ensures r.Some? ==> exists i :: IsFirstDivision(divisions, key, i) && r.value == divisions[i]
  {
    var p := (d: DivisionRow) => Val(d.id) == key;
    var r := Find(divisions, p);
    assert forall i | IsFirstDivision(divisions, key, i) :: IsFirstMatch(divisions, p, i);
    assert forall i | IsFirstMatch(divisions, p, i) :: IsFirstDivision(divisions, key, i);
    r
  }

  /** `teams.find(t => t.id === key)` */
  function FindTeam(teams: seq<TeamRow>, key: Nullable<string>): (r: Option<TeamRow>)
    ensures r.None? <==> forall i | 0 <= i < |teams| :: Val(teams[i].id) != key
    ensures forall i | IsFirstTeam(teams, key, i) :: r == Some(teams[i])
    ensures r.Some? ==> exists i :: IsFirstTeam(teams, key, i) && r.value == teams[i]
  {
    var p := (t: TeamRow) => Val(t.id) == key;
    var r := Find(teams, p);
    assert forall i | IsFirstTeam(teams, key, i) :: IsFirstMatch(teams, p, i);
    assert forall i | IsFirstMatch(teams, p, i) :: IsFirstTeam(teams, key, i);
    r
  }

  /** `services.find(s => s.id === key)` */
  function FindService(services: seq<ServiceRow>, key: Nullable<string>): (r: Option<ServiceRow>)
    ensures r.None? <==> forall i | 0 <= i < |services| :: Val(services[i].id) != key
    ensures forall i | IsFirstService(services, key, i) :: r == Some(services[i])
    ensures r.Some? ==> exists i :: IsFirstService(services, key, i) && r.value == services[i]
  {
    var p := (s: ServiceRow) => Val(s.id) == key;
    var r := Find(services, p);
    assert forall i | IsFirstService(services, key, i) :: IsFirstMatch(services, p, i);
    assert forall i | IsFirstMatch(services, p, i) :: IsFirstService(services, key, i);
    r
  }

  /** `divisions.find(d => d.id === key)?.name || fallback` */
  function DivisionNameOr(divisions: seq<DivisionRow>, key: Nullable<string>, fallback: string): (r: string)
    ensures (forall i | 0 <= i < |divisions| :: Val(divisions[i].id) != key) ==> r == fallback
    ensures forall i | IsFirstDivision(divisions, key, i) ::
              r == (if divisions[i].name == "" then fallback else divisions[i].name)
  {
    var d := FindDivision(divisions, key);
    if d.Some? then StringOr(Val(d.value.name), fallback) else fallback
  }

  /** `teams.find(t => t.id === key)?.name || fallback` */
  function TeamNameOr(teams: seq<TeamRow>, key: Nullable<string>, fallback: string): (r: string)
    ensures (forall i | 0 <= i < |teams| :: Val(teams[i].id) != key) ==> r == fallback
    ensures forall i | IsFirstTeam(teams, key, i) ::
              r == (if teams[i].name == "" then fallback else teams[i].name)
  {
    var t := FindTeam(teams, key);
    if t.Some? then StringOr(Val(t.value.name), fallback) else fallback
  }

  datatype ProductDetails = ProductDetails(name: string, division: string, team: string)

  /** `getProductDetails(productId)` */
  function GetProductDetails(productId: string, services: seq<ServiceRow>, divisions: seq<DivisionRow>,
                             teams: seq<TeamRow>): (r: ProductDetails)
    ensures (forall i | 0 <= i < |services| :: services[i].id != productId) ==>
              r == ProductDetails(UNKNOWN_PRODUCT, UNKNOWN_DIVISION, UNKNOWN_TEAM)
    ensures forall i | IsFirstService(services, Val(productId), i) ::
              && r.name == services[i].name
              && r.division == DivisionNameOr(divisions, FromColumn(services[i].division_id), UNKNOWN_DIVISION)
              && r.team == TeamNameOr(teams, FromColumn(services[i].team_id), UNKNOWN_TEAM)
  {
    match FindService(services, Val(productId))
    case None => ProductDetails(UNKNOWN_PRODUCT, UNKNOWN_DIVISION, UNKNOWN_TEAM)
    case Some(product) =>
      ProductDetails(
        product.name,
        DivisionNameOr(divisions, FromColumn(product.division_id), UNKNOWN_DIVISION),
        TeamNameOr(teams, FromColumn(product.team_id), UNKNOWN_TEAM))
  }

  /**
   * Division and team resolve separately: a product whose division exists but
   * whose team reference dangles shows its real division and "Unknown Team".
   */
  lemma DivisionAndTeamIndependent(productId: string, services: seq<ServiceRow>, divisions: seq<DivisionRow>,
                                   teams: seq<TeamRow>, i: int, k: int)
    requires IsFirstService(services, Val(productId), i)
    requires IsFirstDivision(divisions, FromColumn(services[i].division_id), k) && divisions[k].name != ""
    requires forall j | 0 <= j < |teams| :: Val(teams[j].id) != FromColumn(services[i].team_id)
    ensures GetProductDetails(productId, services, divisions, teams)
            == ProductDetails(services[i].name, divisions[k].name, UNKNOWN_TEAM)
  {
  }

  /**
   * A product with no division, one whose division id dangles, and one whose
   * division is named "" all show "Unknown Division".
   */
  lemma UnsetDanglingAndUnnamedAlike(productId: string, services: seq<ServiceRow>, divisions: seq<DivisionRow>,
                                     teams: seq<TeamRow>, i: int)
    requires IsFirstService(services, Val(productId), i)
    requires || services[i].division_id.None?
             || (forall j | 0 <= j < |divisions| :: Some(divisions[j].id) != services[i].division_id)
             || (exists k :: IsFirstDivision(divisions, FromColumn(services[i].division_id), k) && divisions[k].name == "")
    ensures GetProductDetails(productId, services, divisions, teams).division == UNKNOWN_DIVISION
  {
  }

  /** The record `findProductByName` returns. */
  datatype ProductRecord = ProductRecord(
    id: string,
    name: string,
    description: string,
    division: string,
    divisionId: Nullable<string>,
    team: string,
    teamId: Nullable<string>,
    createdAt: string,
    createdBy: string)

  predicate NameMatches(s: ServiceRow, productName: string) {
    Lower(s.name) == Lower(productName)
  }

  predicate IsFirstNamed(services: seq<ServiceRow>, productName: string, i: int) {
    0 <= i < |services| && NameMatches(services[i], productName)
    && forall j | 0 <= j < i :: !NameMatches(services[j], productName)
  }

  /** `findProductByName(productName)`: case-insensitive exact name match, first one wins. */
  function FindProductByName(productName: string, services: seq<ServiceRow>, divisions: seq<DivisionRow>,
                             teams: seq<TeamRow>): (r: Option<ProductRecord>)
    ensures r.None? <==> forall i | 0 <= i < |services| :: !NameMatches(services[i], productName)
    ensures forall i | IsFirstNamed(services, productName, i) ::
              var s := services[i];
              r == Some(ProductRecord(
                s.id, s.name,
                if s.description.Some? then s.description.value else "",
                DivisionNameOr(divisions, FromColumn(s.division_id), UNKNOWN_DIVISION),
                FromColumn(s.division_id),
                TeamNameOr(teams, FromColumn(s.team_id), UNKNOWN_TEAM),
                FromColumn(s.team_id),
                s.created_at, s.created_by))
  {
    var p := (s: ServiceRow) => NameMatches(s, productName);
    var found := Find(services, p);
    assert forall i | IsFirstNamed(services, productName, i) :: IsFirstMatch(services, p, i);
    match found
    case None => None
    case Some(product) =>
      Some(ProductRecord(
        id := product.id,
        name := product.name,
        description := StringOr(FromColumn(product.description), ""),
        division := DivisionNameOr(divisions, FromColumn(product.division_id), UNKNOWN_DIVISION),
        divisionId := FromColumn(product.division_id),
        team := TeamNameOr(teams, FromColumn(product.team_id), UNKNOWN_TEAM),
        teamId := FromColumn(product.team_id),
        createdAt := product.created_at,
        createdBy := product.created_by))
  }

  /** The name query is case-insensitive: re-casing it finds the same product. */
  lemma FindProductByNameIgnoresCase(a: string, b: string, services: seq<ServiceRow>, divisions: seq<DivisionRow>,
                                     teams: seq<TeamRow>)
    requires SameUpToCase(a, b)
    ensures FindProductByName(a, services, divisions, teams) == FindProductByName(b, services, divisions, teams)
  {
    LowerIgnoresCase(a, b);
    FindSameTest(services, (s: ServiceRow) => NameMatches(s, a), (s: ServiceRow) => NameMatches(s, b));
  }
}
