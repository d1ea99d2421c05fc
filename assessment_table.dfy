/**
 * The assessment table: division names shown per row, and a search box that
 * keeps a row when any of its field values, rendered as text, contains the
 * term regardless of case. The table is given the records the index page
 * builds from the fetched rows.
 */
module AssessmentTable {
  import opened JsValues
  import opened JsStrings
  import opened JsArrays
  import opened Schema
  import opened Records
  import opened ServiceDetails
  import RiskAssessmentsHook

  const NOT_AVAILABLE := "N/A"
  const UNKNOWN := "Unknown"

  /** The table's division column: no id, an id without a division, or that division's name as stored. */
  function GetDivisionName(divisions: seq<DivisionRow>, divisionId: Nullable<string>): (r: string)
    ensures !TruthyString(divisionId) ==> r == NOT_AVAILABLE
    ensures TruthyString(divisionId) && (forall i | 0 <= i < |divisions| :: Val(divisions[i].id) != divisionId) ==>
              r == UNKNOWN
    ensures TruthyString(divisionId) ==> forall i | IsFirstDivision(divisions, divisionId, i) :: r == divisions[i].name
  {
    if !TruthyString(divisionId) then NOT_AVAILABLE
    else
      match FindDivision(divisions, divisionId)
      case None => UNKNOWN
      case Some(d) => d.name
  }

  /** Where a division exists under a non-empty name, the table and the other views agree on it. */
  lemma DivisionNameAgrees(divisions: seq<DivisionRow>, divisionId: Nullable<string>, fallback: string, i: int)
    requires IsFirstDivision(divisions, divisionId, i) && divisions[i].id != "" && divisions[i].name != ""
    ensures GetDivisionName(divisions, divisionId) == DivisionNameOr(divisions, divisionId, fallback)
  {
  }

  /**
   * The record the index page builds from a row and hands the table. Its
   * `impact` key reads a column the table does not have, so it is always
   * `undefined`; `mitigation` is a non-null column.
   */
  datatype ListedAssessment = ListedAssessment(
    id: string,
    serviceId: Nullable<string>,
    riskCategory: string,
    riskDescription: string,
    dataInterface: string,
    dataLocation: string,
    likelihoodPerYear: int,
    riskLevel: string,
    impact: Nullable<string>,
    mitigation: string,
    dataClassification: string,
    riskOwner: string,
    createdAt: int)

  /** The index page's row mapping. `parseDate` stands for `new Date(...)`. */
  function ListAssessment(row: RiskAssessmentRow, parseDate: string -> int): (a: ListedAssessment)
    ensures a.impact == Undefined
    ensures a.serviceId == FromColumn(row.service_id) && a.createdAt == parseDate(row.created_at)
  {
    ListedAssessment(
      id := row.id,
      serviceId := FromColumn(row.service_id),
      riskCategory := row.risk_category,
      riskDescription := row.risk_description,
      dataInterface := row.data_interface,
      dataLocation := row.data_location,
      likelihoodPerYear := row.likelihood_per_year,
      riskLevel := row.risk_level,
      impact := Undefined,
      mitigation := row.mitigation,
      dataClassification := row.data_classification,
      riskOwner := row.risk_owner,
      createdAt := parseDate(row.created_at))
  }

  /** `data.map(...)` with the mapping above. */
  function ListAssessments(rows: seq<RiskAssessmentRow>, parseDate: string -> int): (r: seq<ListedAssessment>)
    ensures |r| == |rows|
    ensures forall i | 0 <= i < |rows| :: r[i] == ListAssessment(rows[i], parseDate)
  {
    if rows == [] then [] else [ListAssessment(rows[0], parseDate)] + ListAssessments(rows[1..], parseDate)
  }

  /**
   * The index page's records hold, under the same names, what the assessment
   * hook decodes from the same row, and nothing of its revenue and PI fields.
   */
  lemma ListAgreesWithHook(row: RiskAssessmentRow, parseDate: string -> int)
    ensures var l := ListAssessment(row, parseDate);
            var a := RiskAssessmentsHook.DecodeAssessment(row, parseDate);
            && l.id == a.id && l.serviceId == a.serviceId && l.riskCategory == a.riskCategory
            && l.riskDescription == a.riskDescription && l.dataInterface == a.dataInterface
            && l.dataLocation == a.dataLocation && l.likelihoodPerYear == a.likelihoodPerYear
            && l.riskLevel == a.riskLevel && Val(l.mitigation) == a.mitigation
            && l.dataClassification == a.dataClassification && l.riskOwner == a.riskOwner
            && l.createdAt == a.createdAt
  {
  }

  /** A value as `Object.values` yields it from a listed assessment. */
  datatype FieldValue = Text(s: string) | Number(n: int) | Flag(b: bool) | Date(ms: int) | NullValue | UndefinedValue

  function TextField(v: Nullable<string>): (r: FieldValue)
    ensures r.NullValue? <==> v.Null?
    ensures r.UndefinedValue? <==> v.Undefined?
    ensures v.Val? ==> r == Text(v.value)
  {
    match v
    case Undefined => UndefinedValue
    case Null => NullValue
    case Val(s) => Text(s)
  }

  /** `Object.values(assessment)`, in the order the index page writes the keys. */
  function Values(a: ListedAssessment): (r: seq<FieldValue>)
    ensures |r| == 13
    ensures r[0] == Text(a.id) && r[1] == TextField(a.serviceId) && r[2] == Text(a.riskCategory)
    ensures r[3] == Text(a.riskDescription) && r[4] == Text(a.dataInterface) && r[5] == Text(a.dataLocation)
    ensures r[6] == Number(a.likelihoodPerYear) && r[7] == Text(a.riskLevel) && r[8] == TextField(a.impact)
    ensures r[9] == Text(a.mitigation) && r[10] == Text(a.dataClassification) && r[11] == Text(a.riskOwner)
    ensures r[12] == Date(a.createdAt)
  {
    [ Text(a.id), TextField(a.serviceId), Text(a.riskCategory), Text(a.riskDescription),
      Text(a.dataInterface), Text(a.dataLocation), Number(a.likelihoodPerYear), Text(a.riskLevel),
      TextField(a.impact), Text(a.mitigation), Text(a.dataClassification), Text(a.riskOwner),
      Date(a.createdAt) ]
  }

  /**
   * `value?.toString()`: nothing for `null` and `undefined`. `dateText` stands
   * for `Date.prototype.toString`.
   */
  function Render(v: FieldValue, dateText: int -> string): (r: Option<string>)
    ensures r.None? <==> v.NullValue? || v.UndefinedValue?
    ensures v.Text? ==> r == Some(v.s)
    ensures v.Number? && v.n >= 0 ==> r.Some? && AllDigits(r.value) && DigitsValue(r.value) == v.n
    ensures v.Flag? ==> r == Some(if v.b then "true" else "false")
  {
    match v
    case Text(s) => Some(s)
    case Number(n) => Some(IntToString(n))
    case Flag(b) => Some(if b then "true" else "false")
    case Date(ms) => Some(dateText(ms))
    case NullValue => None
    case UndefinedValue => None
  }

  predicate FieldMatches(v: FieldValue, term: string, dateText: int -> string) {
    var text := Render(v, dateText);
    text.Some? && Includes(Lower(text.value), Lower(term))
  }

  /** `Object.values(assessment).some(...)` */
  predicate RowMatches(a: ListedAssessment, term: string, dateText: int -> string) {
    exists i | 0 <= i < 13 :: FieldMatches(Values(a)[i], term, dateText)
  }

  /** `filteredAssessments` */
  function SearchAssessments(assessments: seq<ListedAssessment>, term: string, dateText: int -> string)
    : (r: seq<ListedAssessment>)
    ensures IsSubsequence(r, assessments)
    ensures forall x | x in r :: x in assessments && RowMatches(x, term, dateText)
    ensures forall x | x in assessments && RowMatches(x, term, dateText) :: multiset(r)[x] == multiset(assessments)[x]
  {
    Filter(assessments, (a: ListedAssessment) => RowMatches(a, term, dateText))
  }

  /** The empty term keeps every row: its id is always a string, and every string contains "". */
  lemma EmptyTermKeepsAll(assessments: seq<ListedAssessment>, dateText: int -> string)
    ensures SearchAssessments(assessments, "", dateText) == assessments
  {
    forall i | 0 <= i < |assessments| ensures RowMatches(assessments[i], "", dateText) {
      IncludesEmpty(Lower(assessments[i].id));
      assert FieldMatches(Values(assessments[i])[0], "", dateText);
    }
    FilterAll(assessments, (a: ListedAssessment) => RowMatches(a, "", dateText));
  }

  /** Searching "critical" in any casing, "CRITICAL" say, finds every critical assessment. */
  lemma CriticalFindsCritical(assessments: seq<ListedAssessment>, a: ListedAssessment, term: string,
                              dateText: int -> string)
    requires a in assessments && a.riskLevel == "critical" && Lower(term) == "critical"
    ensures a in SearchAssessments(assessments, term, dateText)
  {
    CriticalIsLowerCase();
    LevelMatches(a, term, dateText);
    var r := SearchAssessments(assessments, term, dateText);
    assert multiset(r)[a] == multiset(assessments)[a] > 0;
  }

  lemma CriticalIsLowerCase()
    ensures Lower("critical") == "critical"
  {
    var s := "critical";
    assert forall i | 0 <= i < |s| :: LowerChar(s[i]) == s[i];
  }

  /** A term equal to the risk level up to case matches the row through its level column. */
  lemma LevelMatches(a: ListedAssessment, term: string, dateText: int -> string)
    requires Lower(term) == Lower(a.riskLevel)
    ensures RowMatches(a, term, dateText)
  {
    IncludesSelf(Lower(term));
    assert FieldMatches(Values(a)[7], term, dateText);
  }

  /** The search is case-insensitive: re-casing the term changes nothing. */
  lemma SearchIgnoresCase(assessments: seq<ListedAssessment>, t1: string, t2: string, dateText: int -> string)
    requires SameUpToCase(t1, t2)
    ensures SearchAssessments(assessments, t1, dateText) == SearchAssessments(assessments, t2, dateText)
  {
    LowerIgnoresCase(t1, t2);
    FilterSameTest(assessments, (a: ListedAssessment) => RowMatches(a, t1, dateText),
                   (a: ListedAssessment) => RowMatches(a, t2, dateText));
  }

  /**
   * A `null` or `undefined` value never matches, whatever the term: so the
   * always-undefined `impact` never does, and a row without a product matches
   * exactly as it would with its product id `undefined`.
   */
  lemma NullAndUndefinedAlike(a: ListedAssessment, term: string, dateText: int -> string)
    ensures forall i | 0 <= i < 13 && (Values(a)[i].NullValue? || Values(a)[i].UndefinedValue?) ::
              !FieldMatches(Values(a)[i], term, dateText)
    ensures a.serviceId.Null? ==>
              RowMatches(a, term, dateText) == RowMatches(a.(serviceId := Undefined), term, dateText)
  {
    if a.serviceId.Null? {
      var b := a.(serviceId := Undefined);
      assert forall i | 0 <= i < 13 && i != 1 :: Values(a)[i] == Values(b)[i];
    }
  }
}
