/**
 * The products page: the fourteen default risk assessments every newly
 * created product receives, the create/edit dialog with its form, and the
 * product table's division and team columns.
 */
module ServicesManagement {
  import opened JsValues
  import opened JsArrays
  import opened Schema
  import opened Records
  import opened ServiceDetails
  import CisoReporting

  /** One entry of the default-assessment list: the columns it sets. */
  datatype Template = Template(
    riskCategory: string,
    riskDescription: string,
    riskLevel: string,
    dataClassification: string,
    riskOwner: string,
    mitigation: string,
    dataInterface: string,
    dataLocation: string,
    likelihoodPerYear: int,
    revenueImpact: string)

  const SERVICE_OWNER := "Service Owner"

  /** The fourteen default assessments, in list order. */
  const DEFAULT_RISK_ASSESSMENTS: seq<Template> := [
    Template("Error", "Administrator unintentionally deletes core infrastructure", "high", "Internal",
             SERVICE_OWNER, "Infrastructure as Code, Backup and Recovery procedures", "Infrastructure", "Cloud", 1, "unclear"),
    Template("Error", "Administrator unintentionally exposes PI data", "high", "Confidential",
             SERVICE_OWNER, "Access Controls, Data Classification, Encryption", "Data Storage", "Cloud", 1, "unclear"),
    Template("Error", "Administrator unintentionally introduces significant bug into production software", "high", "Internal",
             SERVICE_OWNER, "Code Review, Testing, CI/CD Pipeline", "Application code", "Code repository", 1, "unclear"),
    Template("Error", "Vulnerable component gets deployed to production environment", "high", "Internal",
             SERVICE_OWNER, "Dependency Scanning, Security Updates", "Application code", "Code repository", 1, "unclear"),
    Template("Error", "Unauthorized internal access to confidential information", "high", "Confidential",
             SERVICE_OWNER, "Access Controls, Auditing", "Data Storage", "Cloud", 1, "unclear"),
    Template("Error", "Unauthorized external or partner access to confidential information", "high", "Confidential",
             SERVICE_OWNER, "Access Controls, Network Security", "API", "Cloud", 1, "unclear"),
    Template("Failure", "Third party dependency disrupts core component", "high", "Internal",
             SERVICE_OWNER, "Vendor Management, Redundancy", "API", "Not applicable", 1, "unclear"),
    Template("Failure", "Unable to provide data to other internal products", "medium", "Internal",
             SERVICE_OWNER, "Monitoring, SLAs", "API", "Not applicable", 1, "unclear"),
    Template("Failure", "Unable to get data from other internal products", "medium", "Internal",
             SERVICE_OWNER, "Retry Logic, Circuit Breakers", "API", "Not applicable", 1, "unclear"),
    Template("Failure", "Insufficient Monitoring and Alerting", "medium", "Internal",
             SERVICE_OWNER, "Monitoring Strategy, Alert Configuration", "Not applicable", "Not applicable", 1, "unclear"),
    Template("Failure", "Resource exhaustion (CPU, memory, storage)", "high", "Internal",
             SERVICE_OWNER, "Resource Monitoring, Auto-scaling", "Infrastructure", "Cloud", 1, "unclear"),
    Template("Failure", "Malfunction causes violation of compliance frameworks like GDPR, NIS2, PCI-DSS", "critical", "Confidential",
             SERVICE_OWNER, "Compliance Monitoring, Regular Audits", "Not applicable", "Not applicable", 1, "unclear"),
    Template("Malicious", "An attacker exposes PI data", "critical", "Confidential",
             SERVICE_OWNER, "Security Controls, Encryption", "Data Storage", "Cloud", 1, "unclear"),
    Template("Malicious", "Data is intentionally compromised by insider", "critical", "Confidential",
             SERVICE_OWNER, "Access Controls, Auditing, Least Privilege", "Data Storage", "Cloud", 1, "unclear")
  ]

  /**
   * `{ ...template, service_id, division_id, created_by }`: the insert object
   * for one template. Columns the template does not name stay absent.
   */
  function Instantiate(t: Template, productId: string, divisionId: Nullable<string>, userId: string): RiskAssessmentInsert {
    RiskAssessmentInsert(
      additional_loss_event_costs := Undefined,
      created_by := userId,
      data_classification := t.dataClassification,
      data_interface := Val(t.dataInterface),
      data_location := Val(t.dataLocation),
      division_id := divisionId,
      global_revenue_impact_hours := Undefined,
      has_global_revenue_impact := Undefined,
      has_local_revenue_impact := Undefined,
      hours_to_remediate := Undefined,
      likelihood_per_year := Val(t.likelihoodPerYear),
      local_revenue_impact_hours := Undefined,
      mitigation := t.mitigation,
      mitigative_controls_implemented := Undefined,
      pi_data_amount := Undefined,
      pi_data_at_risk := Undefined,
      revenue_impact := Val(t.revenueImpact),
      risk_category := t.riskCategory,
      risk_description := t.riskDescription,
      risk_level := t.riskLevel,
      risk_owner := t.riskOwner,
      service_id := Val(productId))
  }

  /** The template an insert object was made from: the columns a template sets, read back. */
  function TemplateOf(r: RiskAssessmentInsert): Template {
    Template(
      r.risk_category, r.risk_description, r.risk_level, r.data_classification, r.risk_owner, r.mitigation,
      if r.data_interface.Val? then r.data_interface.value else "",
      if r.data_location.Val? then r.data_location.value else "",
      if r.likelihood_per_year.Val? then r.likelihood_per_year.value else 0,
      if r.revenue_impact.Val? then r.revenue_impact.value else "")
  }

  /** An insert object sets only the template columns and the three ownership columns. */
  predicate OnlyTemplateColumns(r: RiskAssessmentInsert) {
    && r.additional_loss_event_costs == Undefined && r.global_revenue_impact_hours == Undefined
    && r.has_global_revenue_impact == Undefined && r.has_local_revenue_impact == Undefined
    && r.hours_to_remediate == Undefined && r.local_revenue_impact_hours == Undefined
    && r.mitigative_controls_implemented == Undefined && r.pi_data_amount == Undefined
    && r.pi_data_at_risk == Undefined
    && r.data_interface.Val? && r.data_location.Val? && r.likelihood_per_year.Val? && r.revenue_impact.Val?
  }

  /** Instantiating loses nothing of the template and adds only the ownership columns. */
  lemma InstantiateRoundTrip(t: Template, productId: string, divisionId: Nullable<string>, userId: string)
    ensures var r := Instantiate(t, productId, divisionId, userId);
            && TemplateOf(r) == t && OnlyTemplateColumns(r)
            && r.service_id == Val(productId) && r.division_id == divisionId && r.created_by == userId
  {
  }

  /** Conversely, an insert object of that shape is the instance of the template it carries. */
  lemma TemplateOfRoundTrip(r: RiskAssessmentInsert)
    requires OnlyTemplateColumns(r) && r.service_id.Val?
    ensures Instantiate(TemplateOf(r), r.service_id.value, r.division_id, r.created_by) == r
  {
  }

  /** `DEFAULT_RISK_ASSESSMENTS.map(...)` in `createDefaultRiskAssessments`. */
  function CreateDefaultRiskAssessments(productId: string, divisionId: Nullable<string>, userId: string)
    : (r: seq<RiskAssessmentInsert>)
    ensures |r| == |DEFAULT_RISK_ASSESSMENTS| == 14
    ensures forall i | 0 <= i < |r| ::
              && TemplateOf(r[i]) == DEFAULT_RISK_ASSESSMENTS[i] && OnlyTemplateColumns(r[i])
              && r[i].service_id == Val(productId) && r[i].division_id == divisionId && r[i].created_by == userId
  {
    InstantiateAll(DEFAULT_RISK_ASSESSMENTS, productId, divisionId, userId)
  }

  function InstantiateAll(ts: seq<Template>, productId: string, divisionId: Nullable<string>, userId: string)
    : (r: seq<RiskAssessmentInsert>)
    ensures |r| == |ts|
    ensures forall i | 0 <= i < |ts| ::
              && TemplateOf(r[i]) == ts[i] && OnlyTemplateColumns(r[i])
              && r[i].service_id == Val(productId) && r[i].division_id == divisionId && r[i].created_by == userId
  {
    if ts == [] then []
    else [Instantiate(ts[0], productId, divisionId, userId)] + InstantiateAll(ts[1..], productId, divisionId, userId)
  }

  /** The properties every template shares. */
  predicate IsDefaultShape(t: Template) {
    && t.likelihoodPerYear == 1
    && t.revenueImpact == "unclear"
    && t.riskLevel in ["medium", "high", "critical"]
    && t.riskCategory in CisoReporting.STANDARD_CATEGORIES
  }

  lemma TemplatesShape(i: int)
    requires 0 <= i < |DEFAULT_RISK_ASSESSMENTS|
    ensures IsDefaultShape(DEFAULT_RISK_ASSESSMENTS[i])
  {
  }

  function CategoryIs(c: string): Template -> bool {
    (t: Template) => t.riskCategory == c
  }

  /** The number of templates of category `c`. */
  function CountCategory(ts: seq<Template>, c: string): nat {
    if ts == [] then 0 else (if ts[0].riskCategory == c then 1 else 0) + CountCategory(ts[1..], c)
  }

  /** The count is what `filter(t => t.risk_category === c).length` gives. */
  lemma {:induction false} CountIsFilterLength(ts: seq<Template>, c: string)
    ensures |Filter(ts, CategoryIs(c))| == CountCategory(ts, c)
  {
    if ts != [] {
      CountIsFilterLength(ts[1..], c);
    }
  }

  lemma {:induction false} CountConcat(a: seq<Template>, b: seq<Template>, c: string)
    ensures CountCategory(a + b, c) == CountCategory(a, c) + CountCategory(b, c)
  {
    if a == [] {
      assert a + b == b;
    } else {
      CountConcat(a[1..], b, c);
      assert (a + b)[1..] == a[1..] + b;
    }
  }

  /** A block of templates all of one category counts fully for it and not at all for any other. */
  lemma {:induction false} CountBlock(s: seq<Template>, c: string, other: string)
    requires forall i | 0 <= i < |s| :: s[i].riskCategory == c
    requires other != c
    ensures CountCategory(s, c) == |s| && CountCategory(s, other) == 0
  {
    if s != [] {
      CountBlock(s[1..], c, other);
    }
  }

  /** The list is six "Error" templates, then six "Failure" ones, then two "Malicious" ones. */
  lemma CategoryBlocks()
    ensures forall i | 0 <= i < 6 :: DEFAULT_RISK_ASSESSMENTS[i].riskCategory == "Error"
    ensures forall i | 6 <= i < 12 :: DEFAULT_RISK_ASSESSMENTS[i].riskCategory == "Failure"
    ensures forall i | 12 <= i < 14 :: DEFAULT_RISK_ASSESSMENTS[i].riskCategory == "Malicious"
  {
  }

  /** Six "Error", six "Failure" and two "Malicious" templates. */
  lemma CategorySplit()
    ensures |Filter(DEFAULT_RISK_ASSESSMENTS, CategoryIs("Error"))| == 6
    ensures |Filter(DEFAULT_RISK_ASSESSMENTS, CategoryIs("Failure"))| == 6
    ensures |Filter(DEFAULT_RISK_ASSESSMENTS, CategoryIs("Malicious"))| == 2
  {
    var d := DEFAULT_RISK_ASSESSMENTS;
    CategoryBlocks();
    BlockCounts(d[..6], d[6..12], d[12..], "Error", "Failure", "Malicious");
    assert d == d[..6] + d[6..12] + d[12..];
  }

  /** Counting over three blocks, each made of a single category. */
  lemma BlockCounts(e: seq<Template>, f: seq<Template>, m: seq<Template>, ce: string, cf: string, cm: string)
    requires ce != cf && cf != cm && ce != cm
    requires forall i | 0 <= i < |e| :: e[i].riskCategory == ce
    requires forall i | 0 <= i < |f| :: f[i].riskCategory == cf
    requires forall i | 0 <= i < |m| :: m[i].riskCategory == cm
    ensures |Filter(e + f + m, CategoryIs(ce))| == |e|
    ensures |Filter(e + f + m, CategoryIs(cf))| == |f|
    ensures |Filter(e + f + m, CategoryIs(cm))| == |m|
  {
    var all := e + f + m;
    CountIsFilterLength(all, ce);
    CountIsFilterLength(all, cf);
    CountIsFilterLength(all, cm);
    CountConcat(e + f, m, ce);
    CountConcat(e + f, m, cf);
    CountConcat(e + f, m, cm);
    CountConcat(e, f, ce);
    CountConcat(e, f, cf);
    CountConcat(e, f, cm);
    CountBlock(e, ce, cf);
    CountBlock(e, ce, cm);
    CountBlock(f, cf, ce);
    CountBlock(f, cf, cm);
    CountBlock(m, cm, ce);
    CountBlock(m, cm, cf);
  }

  /** A default assessment, once fetched and decoded, never counts as a custom risk in the CISO report. */
  lemma DefaultsAreNotCustom(productId: string, divisionId: Nullable<string>, userId: string, i: int,
                             a: RiskAssessment)
    requires 0 <= i < 14
    requires a.riskCategory == CreateDefaultRiskAssessments(productId, divisionId, userId)[i].risk_category
    ensures !CisoReporting.IsCustom(a)
  {
    TemplatesShape(i);
  }

  /** The product form's values: name, description and the two selects. */
  datatype ProductForm = ProductForm(
    name: string,
    description: Nullable<string>,
    divisionId: Nullable<string>,
    teamId: Nullable<string>)

  const EMPTY_FORM := ProductForm("", Val(""), Undefined, Undefined)

  /** The form values `handleEdit` loads from a product. */
  function FormOf(p: Service): (f: ProductForm)
    ensures f.name == p.name && f.description == p.description
    ensures f.divisionId == p.divisionId && f.teamId == p.teamId
  {
    ProductForm(p.name, p.description, p.divisionId, p.teamId)
  }

  /** The columns the page writes to `services`. */
  datatype ServiceChanges = ServiceChanges(
    name: string,
    description: Nullable<string>,
    division_id: Nullable<string>,
    team_id: Nullable<string>)

  function ChangesOf(data: ProductForm): (c: ServiceChanges)
    ensures c.name == data.name && c.description == data.description
    ensures c.division_id == data.divisionId && c.team_id == data.teamId
  {
    ServiceChanges(data.name, data.description, data.divisionId, data.teamId)
  }

  /** A request the page sends to the backend. */
  datatype Request =
    | UpdateService(id: string, changes: ServiceChanges)
    | InsertService(changes: ServiceChanges, createdBy: string)
    | InsertAssessments(records: seq<RiskAssessmentInsert>)
    | DeleteService(id: string)
    | Refetch

  /**
   * Every batch of assessments sent is sent right after the insert of a
   * product, is owned by that product's creator and records its division.
   */
  predicate AssessmentsFollowInserts(log: seq<Request>) {
    forall i | 0 <= i < |log| && log[i].InsertAssessments? ::
      && i > 0 && log[i - 1].InsertService?
      && |log[i].records| == 14
      && forall k | 0 <= k < |log[i].records| ::
           && log[i].records[k].created_by == log[i - 1].createdBy
           && log[i].records[k].division_id == log[i - 1].changes.division_id
  }

  lemma AppendPreserves(log: seq<Request>, extra: seq<Request>)
    requires AssessmentsFollowInserts(log)
    requires forall j | 0 <= j < |extra| :: !extra[j].InsertAssessments?
    ensures AssessmentsFollowInserts(log + extra)
  {
    var l := log + extra;
    forall i | 0 <= i < |l| && l[i].InsertAssessments?
      ensures i > 0 && l[i - 1].InsertService? && |l[i].records| == 14
    {
      if i >= |log| {
        assert false;
      }
    }
  }

  /** In the product table, `find(...)?.name || 'Not assigned'`. */
  const NOT_ASSIGNED := "Not assigned"

  datatype TableRow = TableRow(name: string, description: Nullable<string>, division: string, team: string)

  /** One row of the product table. */
  function ProductTableRow(product: Service, divisions: seq<DivisionRow>, teams: seq<TeamRow>): (r: TableRow)
    ensures r.name == product.name && r.description == product.description
    ensures (forall i | 0 <= i < |divisions| :: Val(divisions[i].id) != product.divisionId) ==> r.division == NOT_ASSIGNED
    ensures (forall i | 0 <= i < |teams| :: Val(teams[i].id) != product.teamId) ==> r.team == NOT_ASSIGNED
    ensures forall i | IsFirstDivision(divisions, product.divisionId, i) ::
              r.division == (if divisions[i].name == "" then NOT_ASSIGNED else divisions[i].name)
    ensures forall i | IsFirstTeam(teams, product.teamId, i) ::
              r.team == (if teams[i].name == "" then NOT_ASSIGNED else teams[i].name)
  {
    TableRow(
      product.name,
      product.description,
      DivisionNameOr(divisions, product.divisionId, NOT_ASSIGNED),
      TeamNameOr(teams, product.teamId, NOT_ASSIGNED))
  }

  /** A product without a division shows "Not assigned", whatever the divisions are. */
  lemma UnassignedDivision(product: Service, divisions: seq<DivisionRow>, teams: seq<TeamRow>)
    requires !product.divisionId.Val?
    ensures ProductTableRow(product, divisions, teams).division == NOT_ASSIGNED
  {
  }

  /**
   * The page's state: whether the dialog is open, the product being edited,
   * the form's current and default values, and the requests sent so far.
   * `form.reset(values)` replaces both the values and the defaults;
   * `form.reset()` restores the defaults.
   */
  class ProductsPage {
    var open: bool
    var editingProduct: Option<Service>
    var formValues: ProductForm
    var formDefaults: ProductForm
    var requests: seq<Request>

    /** A product is only ever being edited while the dialog is open. */
    predicate Valid()
      reads this
    {
      && (editingProduct.Some? ==> open)
      && AssessmentsFollowInserts(requests)
    }

    constructor ()
      ensures Valid()
      ensures !open && editingProduct == None
      ensures formValues == EMPTY_FORM && formDefaults == EMPTY_FORM
      ensures requests == []
    {
      open := false;
      editingProduct := None;
      formValues := EMPTY_FORM;
      formDefaults := EMPTY_FORM;
      requests := [];
    }

    /** `handleEdit(product)` */
    method HandleEdit(product: Service)
      requires Valid()
      modifies this
      ensures Valid()
      ensures editingProduct == Some(product) && open
      ensures formValues == FormOf(product) && formDefaults == FormOf(product)
      ensures requests == old(requests)
    {
      editingProduct := Some(product);
      formValues := FormOf(product);
      formDefaults := FormOf(product);
      open := true;
    }

    /** `handleDialogClose(isOpen)`: closing discards the edit and empties the form. */
    method HandleDialogClose(isOpen: bool)
      requires Valid()
      modifies this
      ensures Valid()
      ensures open == isOpen
      ensures !isOpen ==> editingProduct == None && formValues == EMPTY_FORM && formDefaults == EMPTY_FORM
      ensures isOpen ==> editingProduct == old(editingProduct) && formValues == old(formValues)
                         && formDefaults == old(formDefaults)
      ensures requests == old(requests)
    {
      if !isOpen {
        editingProduct := None;
        formValues := EMPTY_FORM;
        formDefaults := EMPTY_FORM;
      }
      open := isOpen;
    }

    /** What a successful save does: `form.reset()`, close, forget the edit, refetch. */
    method FinishSave()
      requires Valid()
      modifies this
      ensures Valid()
      ensures formValues == old(formDefaults) && formDefaults == old(formDefaults)
      ensures !open && editingProduct == None
      ensures requests == old(requests) + [Refetch]
    {
      formValues := formDefaults;
      open := false;
      editingProduct := None;
      AppendPreserves(requests, [Refetch]);
      requests := requests + [Refetch];
    }

    /**
     * `onSubmit(data)`. The backend's answers are inputs: `updateFails` and
     * `assessmentsFail` say whether that request errs, `insertedId` is the id
     * of the created product or `None` when the insert errs, and `userId` is
     * the signed-in user's id. On any failure the state stays as it was and
     * only the requests already sent remain logged.
     */
    method OnSubmit(data: ProductForm, userId: Nullable<string>, updateFails: bool, insertedId: Option<string>,
                    assessmentsFail: bool) returns (saved: bool)
      requires Valid()
      modifies this
      ensures Valid()
      ensures var sent := if old(editingProduct).Some? then [UpdateService(old(editingProduct).value.id, ChangesOf(data))]
                          else if !TruthyString(userId) then []
                          else if insertedId.None? then [InsertService(ChangesOf(data), userId.value)]
                          else [InsertService(ChangesOf(data), userId.value),
                                InsertAssessments(CreateDefaultRiskAssessments(insertedId.value, data.divisionId, userId.value))];
              requests == old(requests) + sent + (if saved then [Refetch] else [])
      ensures saved <==> if old(editingProduct).Some? then !updateFails
                         else TruthyString(userId) && insertedId.Some? && !assessmentsFail
      ensures saved ==> formValues == old(formDefaults) && !open && editingProduct == None
      ensures !saved ==> formValues == old(formValues) && open == old(open) && editingProduct == old(editingProduct)
      ensures formDefaults == old(formDefaults)
    {
      if editingProduct.Some? {
        var update := UpdateService(editingProduct.value.id, ChangesOf(data));
        AppendPreserves(requests, [update]);
        requests := requests + [update];
        if updateFails {
          return false;
        }
      } else {
        if !TruthyString(userId) {
          return false;
        }
        var insert := InsertService(ChangesOf(data), userId.value);
        AppendPreserves(requests, [insert]);
        requests := requests + [insert];
        if insertedId.None? {
          return false;
        }
        var batch := InsertAssessments(CreateDefaultRiskAssessments(insertedId.value, data.divisionId, userId.value));
        AddBatch(insert, batch);
        if assessmentsFail {
          return false;
        }
      }
      FinishSave();
      saved := true;
    }

    /** Sends a batch of default assessments right after the product insert it belongs to. */
    method AddBatch(insert: Request, batch: Request)
      requires Valid()
      requires |requests| > 0 && requests[|requests| - 1] == insert && insert.InsertService?
      requires batch.InsertAssessments? && |batch.records| == 14
      requires forall k | 0 <= k < 14 :: batch.records[k].created_by == insert.createdBy
                                          && batch.records[k].division_id == insert.changes.division_id
      modifies this
      ensures Valid()
      ensures requests == old(requests) + [batch]
      ensures open == old(open) && editingProduct == old(editingProduct)
      ensures formValues == old(formValues) && formDefaults == old(formDefaults)
    {
      var before := requests;
      requests := requests + [batch];
      forall i | 0 <= i < |requests| && requests[i].InsertAssessments?
        ensures && i > 0 && requests[i - 1].InsertService?
                && |requests[i].records| == 14
                && forall k | 0 <= k < |requests[i].records| ::
                     && requests[i].records[k].created_by == requests[i - 1].createdBy
                     && requests[i].records[k].division_id == requests[i - 1].changes.division_id
      {
        if i < |before| {
          assert requests[i] == before[i] && requests[i - 1] == before[i - 1];
        }
      }
    }

    /**
     * Editing a product and saving the loaded values unchanged sends one update
     * of that product with its own fields, then refetches; the form keeps the
     * product's values, which `handleEdit` made its defaults.
     */
    method EditAndResubmit(product: Service, userId: Nullable<string>) returns (saved: bool)
      requires Valid()
      modifies this
      ensures Valid()
      ensures saved
      ensures requests == old(requests) + [UpdateService(product.id,
                 ServiceChanges(product.name, product.description, product.divisionId, product.teamId)), Refetch]
      ensures !open && editingProduct == None
      ensures formValues == FormOf(product) && formDefaults == FormOf(product)
    {
      HandleEdit(product);
      saved := OnSubmit(formValues, userId, false, None, false);
    }

    /** `handleDelete(id)`: on success the list is refetched; the dialog and form are untouched. */
    method HandleDelete(id: string, deleteFails: bool) returns (deleted: bool)
      requires Valid()
      modifies this
      ensures Valid()
      ensures deleted == !deleteFails
      ensures requests == old(requests) + [DeleteService(id)] + (if deleted then [Refetch] else [])
      ensures open == old(open) && editingProduct == old(editingProduct)
      ensures formValues == old(formValues) && formDefaults == old(formDefaults)
    {
      var sent := [DeleteService(id)] + (if deleteFails then [] else [Refetch]);
      AppendPreserves(requests, sent);
      requests := requests + sent;
      deleted := !deleteFails;
    }
  }
}
