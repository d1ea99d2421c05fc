/**
 * The rows of the hosted database's tables, as the generated typing of the
 * client library describes them: snake_case columns, `Option` where a column
 * is nullable. Timestamps are the strings the backend sends; numeric columns
 * are modelled as integers.
 */
module Schema {
  import opened JsValues

  datatype DivisionRow = DivisionRow(
    created_at: string,
    created_by: string,
    description: Option<string>,
    id: string,
    name: string,
    parent_division_id: Option<string>)

  datatype TeamRow = TeamRow(
    created_at: string,
    created_by: string,
    description: Option<string>,
    division_id: Option<string>,
    id: string,
    name: string)

  datatype ServiceRow = ServiceRow(
    created_at: string,
    created_by: string,
    description: Option<string>,
    division_id: Option<string>,
    id: string,
    name: string,
    team_id: Option<string>)

  datatype RiskAssessmentRow = RiskAssessmentRow(
    additional_loss_event_costs: Option<int>,
    created_at: string,
    created_by: string,
    data_classification: string,
    data_interface: string,
    data_location: string,
    division_id: Option<string>,
    global_revenue_impact_hours: Option<int>,
    has_global_revenue_impact: Option<bool>,
    has_local_revenue_impact: Option<bool>,
    hours_to_remediate: Option<int>,
    id: string,
    likelihood_per_year: int,
    local_revenue_impact_hours: Option<int>,
    mitigation: string,
    mitigative_controls_implemented: Option<string>,
    pi_data_amount: Option<string>,
    pi_data_at_risk: string,
    post_mortem_hours: Option<int>,
    revenue_impact: string,
    risk_category: string,
    risk_description: string,
    risk_level: string,
    risk_owner: string,
    service_id: Option<string>)

  /**
   * An object handed to `insert` on the `risk_assessments` table. The optional
   * columns are `Nullable`: `Undefined` means the key is absent or undefined,
   * so the backend applies the column default. The columns `id`, `created_at`
   * and `post_mortem_hours`, which no insert in the core sets, are not listed.
   */
  datatype RiskAssessmentInsert = RiskAssessmentInsert(
    additional_loss_event_costs: Nullable<int>,
    created_by: string,
    data_classification: string,
    data_interface: Nullable<string>,
    data_location: Nullable<string>,
    division_id: Nullable<string>,
    global_revenue_impact_hours: Nullable<int>,
    has_global_revenue_impact: Nullable<bool>,
    has_local_revenue_impact: Nullable<bool>,
    hours_to_remediate: Nullable<int>,
    likelihood_per_year: Nullable<int>,
    local_revenue_impact_hours: Nullable<int>,
    mitigation: string,
    mitigative_controls_implemented: Nullable<string>,
    pi_data_amount: Nullable<string>,
    pi_data_at_risk: Nullable<string>,
    revenue_impact: Nullable<string>,
    risk_category: string,
    risk_description: string,
    risk_level: string,
    risk_owner: string,
    service_id: Nullable<string>)
}
