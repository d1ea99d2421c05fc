/**
 * The camelCase records the views work with: a product (service) and a risk
 * assessment as the fetch hooks build them from rows, and the values of the
 * risk-assessment form (an assessment without `id` and `createdAt`).
 * Timestamps are milliseconds since the epoch.
 */
module Records {
  import opened JsValues

  datatype Service = Service(
    id: string,
    name: string,
    description: Nullable<string>,
    divisionId: Nullable<string>,
    teamId: Nullable<string>,
    createdAt: int,
    createdBy: string)

  /** Field order is the order in which the decoder writes them, which `Object.values` follows. */
  datatype RiskAssessment = RiskAssessment(
    id: string,
    serviceId: Nullable<string>,
    riskCategory: string,
    riskDescription: string,
    dataInterface: string,
    dataLocation: string,
    likelihoodPerYear: int,
    riskLevel: string,
    mitigation: Nullable<string>,
    dataClassification: string,
    riskOwner: string,
    createdAt: int,
    divisionId: Nullable<string>,
    revenueImpact: string,
    hasGlobalRevenueImpact: Nullable<bool>,
    globalRevenueImpactHours: Nullable<int>,
    hasLocalRevenueImpact: Nullable<bool>,
    localRevenueImpactHours: Nullable<int>,
    hoursToRemediate: Nullable<int>,
    additionalLossEventCosts: Nullable<int>,
    piDataAtRisk: string,
    piDataAmount: Nullable<string>,
    mitigativeControlsImplemented: string)

  /** The risk-assessment form's values; each field has the type of the assessment field of that name. */
  datatype AssessmentInput = AssessmentInput(
    serviceId: Nullable<string>,
    riskCategory: string,
    riskDescription: string,
    dataInterface: string,
    dataLocation: string,
    likelihoodPerYear: int,
    riskLevel: string,
    mitigation: Nullable<string>,
    dataClassification: string,
    riskOwner: string,
    divisionId: Nullable<string>,
    revenueImpact: string,
    hasGlobalRevenueImpact: Nullable<bool>,
    globalRevenueImpactHours: Nullable<int>,
    hasLocalRevenueImpact: Nullable<bool>,
    localRevenueImpactHours: Nullable<int>,
    hoursToRemediate: Nullable<int>,
    additionalLossEventCosts: Nullable<int>,
    piDataAtRisk: string,
    piDataAmount: Nullable<string>,
    mitigativeControlsImplemented: string)
}
