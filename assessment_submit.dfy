/**
 * Submitting a new risk assessment: without a signed-in user nothing
 * happens; otherwise the form values, with the user's e-mail as owner,
 * become one insert on `risk_assessments`, and only an insert without error
 * is followed by the caller's `onSubmit` and a form reset.
 */
module AssessmentSubmit {
  import opened JsValues
  import opened Schema
  import opened Records

  /** The signed-in user as the auth provider exposes it. */
  datatype User = User(id: string, email: Nullable<string>)

  /** `{ ...values, riskOwner: user.email || values.riskOwner }` */
  function DataToSubmit(values: AssessmentInput, user: User): (d: AssessmentInput)
    ensures TruthyString(user.email) ==> d.riskOwner == user.email.value
    ensures !TruthyString(user.email) ==> d.riskOwner == values.riskOwner
    ensures d.(riskOwner := values.riskOwner) == values
  {
    values.(riskOwner := StringOr(user.email, values.riskOwner))
  }

  /** The object handed to `insert`: camelCase fields renamed, mitigation defaulted, owner id added. */
  function InsertPayload(d: AssessmentInput, userId: string): (r: RiskAssessmentInsert)
    ensures r.created_by == userId
    ensures r.mitigation == (if TruthyString(d.mitigation) then d.mitigation.value else "")
    ensures r.division_id == Undefined
  {
    RiskAssessmentInsert(
      additional_loss_event_costs := d.additionalLossEventCosts,
      created_by := userId,
      data_classification := d.dataClassification,
      data_interface := Val(d.dataInterface),
      data_location := Val(d.dataLocation),
      division_id := Undefined,
      global_revenue_impact_hours := d.globalRevenueImpactHours,
      has_global_revenue_impact := d.hasGlobalRevenueImpact,
      has_local_revenue_impact := d.hasLocalRevenueImpact,
      hours_to_remediate := d.hoursToRemediate,
      likelihood_per_year := Val(d.likelihoodPerYear),
      local_revenue_impact_hours := d.localRevenueImpactHours,
      mitigation := StringOr(d.mitigation, ""),
      mitigative_controls_implemented := Val(d.mitigativeControlsImplemented),
      pi_data_amount := d.piDataAmount,
      pi_data_at_risk := Val(d.piDataAtRisk),
      revenue_impact := Val(d.revenueImpact),
      risk_category := d.riskCategory,
      risk_description := d.riskDescription,
      risk_level := d.riskLevel,
      risk_owner := d.riskOwner,
      service_id := d.serviceId)
  }

  /**
   * The form values an insert object was built from. The object does not
   * carry the form's division, so it is supplied.
   */
  function InputOf(r: RiskAssessmentInsert, divisionId: Nullable<string>): AssessmentInput {
    AssessmentInput(
      serviceId := r.service_id,
      riskCategory := r.risk_category,
      riskDescription := r.risk_description,
      dataInterface := if r.data_interface.Val? then r.data_interface.value else "",
      dataLocation := if r.data_location.Val? then r.data_location.value else "",
      likelihoodPerYear := if r.likelihood_per_year.Val? then r.likelihood_per_year.value else 0,
      riskLevel := r.risk_level,
      mitigation := Val(r.mitigation),
      dataClassification := r.data_classification,
      riskOwner := r.risk_owner,
      divisionId := divisionId,
      revenueImpact := if r.revenue_impact.Val? then r.revenue_impact.value else "",
      hasGlobalRevenueImpact := r.has_global_revenue_impact,
      globalRevenueImpactHours := r.global_revenue_impact_hours,
      hasLocalRevenueImpact := r.has_local_revenue_impact,
      localRevenueImpactHours := r.local_revenue_impact_hours,
      hoursToRemediate := r.hours_to_remediate,
      additionalLossEventCosts := r.additional_loss_event_costs,
      piDataAtRisk := if r.pi_data_at_risk.Val? then r.pi_data_at_risk.value else "",
      piDataAmount := r.pi_data_amount,
      mitigativeControlsImplemented :=
        if r.mitigative_controls_implemented.Val? then r.mitigative_controls_implemented.value else "")
  }

  /**
   * Every other column is the form field of that name, unchanged: reading
   * the payload back gives the submitted values, up to a missing or empty
   * mitigation, which is sent as "".
   */
  lemma PayloadRoundTrip(d: AssessmentInput, userId: string)
    ensures InputOf(InsertPayload(d, userId), d.divisionId)
            == d.(mitigation := Val(if TruthyString(d.mitigation) then d.mitigation.value else ""))
  {
  }

  /** With a set mitigation the payload loses nothing but the division. */
  lemma PayloadKeepsMitigation(d: AssessmentInput, userId: string)
    requires TruthyString(d.mitigation)
    ensures InputOf(InsertPayload(d, userId), d.divisionId) == d
  {
    PayloadRoundTrip(d, userId);
  }

  /** The owner that reaches the database is the user's e-mail whenever the user has one. */
  lemma OwnerIsEmail(values: AssessmentInput, user: User)
    requires TruthyString(user.email)
    ensures InsertPayload(DataToSubmit(values, user), user.id).risk_owner == user.email.value
    ensures InsertPayload(DataToSubmit(values, user), user.id).created_by == user.id
  {
  }

  /** What `handleSubmit` causes, in order. */
  datatype Effect =
    | Inserted(payload: RiskAssessmentInsert)
    | Submitted(data: AssessmentInput)
    | FormReset

  /**
   * Each `onSubmit` call comes right after the insert of exactly the data it
   * receives, and is followed by a form reset.
   */
  predicate SubmitsFollowInserts(effects: seq<Effect>) {
    forall i | 0 <= i < |effects| && effects[i].Submitted? ::
      && 0 < i && i + 1 < |effects|
      && effects[i - 1].Inserted?
      && effects[i - 1].payload == InsertPayload(effects[i].data, effects[i - 1].payload.created_by)
      && effects[i + 1].FormReset?
  }

  /** The submit handler together with the form it resets. */
  class Submitter {
    var formValues: AssessmentInput
    var formDefaults: AssessmentInput
    var effects: seq<Effect>

    predicate Valid()
      reads this
    {
      SubmitsFollowInserts(effects)
    }

    constructor (defaults: AssessmentInput)
      ensures Valid()
      ensures formValues == defaults && formDefaults == defaults && effects == []
    {
      formValues := defaults;
      formDefaults := defaults;
      effects := [];
    }

    /**
     * `handleSubmit(values)`. `user` is the signed-in user, if any;
     * `insertFails` says whether the backend answers the insert with an error.
     */
    method HandleSubmit(values: AssessmentInput, user: Option<User>, insertFails: bool) returns (saved: bool)
      requires Valid()
      modifies this
      ensures Valid()
      ensures user.None? ==> !saved && effects == old(effects) && formValues == old(formValues)
      ensures user.Some? ==>
                var data := DataToSubmit(values, user.value);
                && saved == !insertFails
                && effects == old(effects) + [Inserted(InsertPayload(data, user.value.id))]
                                           + (if saved then [Submitted(data), FormReset] else [])
      ensures formValues == if saved then old(formDefaults) else old(formValues)
      ensures formDefaults == old(formDefaults)
    {
      if user.None? {
        return false;
      }
      var data := DataToSubmit(values, user.value);
      var payload := InsertPayload(data, user.value.id);
      var before := effects;
      effects := effects + [Inserted(payload)];
      if insertFails {
        InsertOnlyPreserves(before, payload);
        return false;
      }
      effects := effects + [Submitted(data)];
      formValues := formDefaults;
      effects := effects + [FormReset];
      CycleAppends(before, payload, data, user.value.id);
      saved := true;
    }
  }

  lemma InsertOnlyPreserves(effects: seq<Effect>, payload: RiskAssessmentInsert)
    requires SubmitsFollowInserts(effects)
    ensures SubmitsFollowInserts(effects + [Inserted(payload)])
  {
    var e := effects + [Inserted(payload)];
    forall i | 0 <= i < |e| && e[i].Submitted?
      ensures && 0 < i && i + 1 < |e| && e[i - 1].Inserted?
              && e[i - 1].payload == InsertPayload(e[i].data, e[i - 1].payload.created_by)
              && e[i + 1].FormReset?
    {
      assert e[i] == effects[i] && e[i - 1] == effects[i - 1] && e[i + 1] == effects[i + 1];
    }
  }

  lemma CycleAppends(effects: seq<Effect>, payload: RiskAssessmentInsert, data: AssessmentInput, uid: string)
    requires SubmitsFollowInserts(effects)
    requires payload == InsertPayload(data, uid)
    ensures SubmitsFollowInserts(effects + [Inserted(payload)] + [Submitted(data)] + [FormReset])
  {
    var e := effects + [Inserted(payload)] + [Submitted(data)] + [FormReset];
    var n := |effects|;
    forall i | 0 <= i < |e| && e[i].Submitted?
      ensures && 0 < i && i + 1 < |e| && e[i - 1].Inserted?
              && e[i - 1].payload == InsertPayload(e[i].data, e[i - 1].payload.created_by)
              && e[i + 1].FormReset?
    {
      if i < n {
        assert e[i] == effects[i] && e[i - 1] == effects[i - 1] && e[i + 1] == effects[i + 1];
      } else {
        assert i == n + 1;
      }
    }
  }
}
