/**
 * The risk-assessment query: without a user id nothing is fetched; otherwise
 * every fetched row (already in the backend's newest-first order) becomes a
 * `RiskAssessment`, with `||` defaults on two columns.
 */
module RiskAssessmentsHook {
  import opened JsValues
  import opened Schema
  import opened Records

  /** The row-to-record mapping of the query. `parseDate` stands for `new Date(...)`. */
  function DecodeAssessment(row: RiskAssessmentRow, parseDate: string -> int): (a: RiskAssessment)
    ensures a.id == row.id
    ensures a.serviceId == FromColumn(row.service_id) && a.divisionId == FromColumn(row.division_id)
    ensures a.piDataAtRisk == (if row.pi_data_at_risk == "" then "no" else row.pi_data_at_risk)
    ensures a.mitigativeControlsImplemented ==
      (if row.mitigative_controls_implemented == Some("") || row.mitigative_controls_implemented == None
       then "" else row.mitigative_controls_implemented.value)
    ensures a.hoursToRemediate.Undefined? == false
    ensures a.hoursToRemediate.Val? <==> row.hours_to_remediate.Some?
    ensures a.createdAt == parseDate(row.created_at)
  {
    RiskAssessment(
      id := row.id,
      serviceId := FromColumn(row.service_id),
      riskCategory := row.risk_category,
      riskDescription := row.risk_description,
      dataInterface := row.data_interface,
      dataLocation := row.data_location,
      likelihoodPerYear := row.likelihood_per_year,
      riskLevel := row.risk_level,
      mitigation := Val(row.mitigation),
      dataClassification := row.data_classification,
      riskOwner := row.risk_owner,
      createdAt := parseDate(row.created_at),
      divisionId := FromColumn(row.division_id),
      revenueImpact := row.revenue_impact,
      hasGlobalRevenueImpact := FromColumn(row.has_global_revenue_impact),
      globalRevenueImpactHours := FromColumn(row.global_revenue_impact_hours),
      hasLocalRevenueImpact := FromColumn(row.has_local_revenue_impact),
      localRevenueImpactHours := FromColumn(row.local_revenue_impact_hours),
      hoursToRemediate := FromColumn(row.hours_to_remediate),
      additionalLossEventCosts := FromColumn(row.additional_loss_event_costs),
      piDataAtRisk := if row.pi_data_at_risk == "" then "no" else row.pi_data_at_risk,
      piDataAmount := FromColumn(row.pi_data_amount),
      mitigativeControlsImplemented := StringOr(FromColumn(row.mitigative_controls_implemented), ""))
  }

  /** `data.map(...)` with the mapping above. */
  function DecodeAssessments(rows: seq<RiskAssessmentRow>, parseDate: string -> int): (r: seq<RiskAssessment>)
    ensures |r| == |rows|
    ensures forall i | 0 <= i < |rows| :: r[i] == DecodeAssessment(rows[i], parseDate)
    ensures forall i | 0 <= i < |rows| :: r[i].id == rows[i].id
  {
    if rows == [] then [] else [DecodeAssessment(rows[0], parseDate)] + DecodeAssessments(rows[1..], parseDate)
  }

  /** The query function: an absent or empty user id yields the empty list. */
  function FetchAssessments(userId: Nullable<string>, rows: seq<RiskAssessmentRow>, parseDate: string -> int)
    : (r: seq<RiskAssessment>)
    ensures !TruthyString(userId) ==> r == []
    ensures TruthyString(userId) ==> |r| == |rows| && forall i | 0 <= i < |rows| :: r[i] == DecodeAssessment(rows[i], parseDate)
  {
    if !TruthyString(userId) then [] else DecodeAssessments(rows, parseDate)
  }

  /** A record as the decoder can produce it: every nullable field is `null` or set, never `undefined`. */
  predicate IsDecoded(a: RiskAssessment) {
    && !a.serviceId.Undefined? && !a.divisionId.Undefined? && a.mitigation.Val?
    && !a.hasGlobalRevenueImpact.Undefined? && !a.globalRevenueImpactHours.Undefined?
    && !a.hasLocalRevenueImpact.Undefined? && !a.localRevenueImpactHours.Undefined?
    && !a.hoursToRemediate.Undefined? && !a.additionalLossEventCosts.Undefined?
    && !a.piDataAmount.Undefined? && a.piDataAtRisk != ""
  }

  function ToColumn<T>(v: Nullable<T>): Option<T> {
    if v.Val? then Some(v.value) else None
  }

  /**
   * A row that decodes to `a`: the decoder's partial inverse. The columns the
   * record does not carry (`created_by`, `post_mortem_hours`, the timestamp's
   * text) are supplied.
   */
  function EncodeAssessment(a: RiskAssessment, createdAt: string, createdBy: string, postMortemHours: Option<int>)
    : RiskAssessmentRow
  {
    RiskAssessmentRow(
      additional_loss_event_costs := ToColumn(a.additionalLossEventCosts),
      created_at := createdAt,
      created_by := createdBy,
      data_classification := a.dataClassification,
      data_interface := a.dataInterface,
      data_location := a.dataLocation,
      division_id := ToColumn(a.divisionId),
      global_revenue_impact_hours := ToColumn(a.globalRevenueImpactHours),
      has_global_revenue_impact := ToColumn(a.hasGlobalRevenueImpact),
      has_local_revenue_impact := ToColumn(a.hasLocalRevenueImpact),
      hours_to_remediate := ToColumn(a.hoursToRemediate),
      id := a.id,
      likelihood_per_year := a.likelihoodPerYear,
      local_revenue_impact_hours := ToColumn(a.localRevenueImpactHours),
      mitigation := if a.mitigation.Val? then a.mitigation.value else "",
      mitigative_controls_implemented := Some(a.mitigativeControlsImplemented),
      pi_data_amount := ToColumn(a.piDataAmount),
      pi_data_at_risk := a.piDataAtRisk,
      post_mortem_hours := postMortemHours,
      revenue_impact := a.revenueImpact,
      risk_category := a.riskCategory,
      risk_description := a.riskDescription,
      risk_level := a.riskLevel,
      risk_owner := a.riskOwner,
      service_id := ToColumn(a.serviceId))
  }

  /** Every decoded record is in the decoder's image... */
  lemma DecodedIsDecoded(row: RiskAssessmentRow, parseDate: string -> int)
    ensures IsDecoded(DecodeAssessment(row, parseDate))
  {
  }

  /** ...and every record in that image is decoded back from its encoding: no field is lost or altered. */
  lemma DecodeEncode(a: RiskAssessment, createdAt: string, createdBy: string, postMortemHours: Option<int>,
                     parseDate: string -> int)
    requires IsDecoded(a) && parseDate(createdAt) == a.createdAt
    ensures DecodeAssessment(EncodeAssessment(a, createdAt, createdBy, postMortemHours), parseDate) == a
  {
  }

  /**
   * Apart from the two defaulted columns, decoding copies every column it
   * reads: re-encoding a decoded row gives the row back.
   */
  lemma EncodeDecode(row: RiskAssessmentRow, parseDate: string -> int)
    requires row.pi_data_at_risk != "" && row.mitigative_controls_implemented.Some?
    ensures EncodeAssessment(DecodeAssessment(row, parseDate), row.created_at, row.created_by, row.post_mortem_hours) == row
  {
  }
}
