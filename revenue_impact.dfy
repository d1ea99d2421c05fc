/**
 * The revenue-impact part of the risk-assessment form: the global and local
 * checkboxes appear only for a "yes" revenue impact, each hours input only
 * while its checkbox is set, and unchecking a box clears its hours.
 */
module RevenueImpact {
  import opened JsValues
  import opened Records

  /** What a checkbox reports on change: `true`, `false` or "indeterminate". */
  datatype CheckedState = Checked | Unchecked | Indeterminate

  /** `showRevenueImpactOptions` */
  predicate ShowOptions(v: AssessmentInput) {
    v.revenueImpact == "yes"
  }

  /** The global-hours input is rendered inside the options block while its flag is truthy. */
  predicate ShowGlobalHours(v: AssessmentInput) {
    ShowOptions(v) && TruthyBool(v.hasGlobalRevenueImpact)
  }

  predicate ShowLocalHours(v: AssessmentInput) {
    ShowOptions(v) && TruthyBool(v.hasLocalRevenueImpact)
  }

  /** The global checkbox's `onCheckedChange`, as a function of the form values. */
  function AfterGlobalChange(v: AssessmentInput, checked: CheckedState): (w: AssessmentInput)
    ensures w.hasGlobalRevenueImpact == Val(checked == Checked)
    ensures w.globalRevenueImpactHours == if checked == Unchecked then Undefined else v.globalRevenueImpactHours
    ensures w.hasLocalRevenueImpact == v.hasLocalRevenueImpact && w.localRevenueImpactHours == v.localRevenueImpactHours
    ensures w.(hasGlobalRevenueImpact := v.hasGlobalRevenueImpact, globalRevenueImpactHours := v.globalRevenueImpactHours) == v
  {
    var flagged := v.(hasGlobalRevenueImpact := Val(checked == Checked));
    if checked == Unchecked then flagged.(globalRevenueImpactHours := Undefined) else flagged
  }

  /** The local checkbox's `onCheckedChange`. */
  function AfterLocalChange(v: AssessmentInput, checked: CheckedState): (w: AssessmentInput)
    ensures w.hasLocalRevenueImpact == Val(checked == Checked)
    ensures w.localRevenueImpactHours == if checked == Unchecked then Undefined else v.localRevenueImpactHours
    ensures w.hasGlobalRevenueImpact == v.hasGlobalRevenueImpact && w.globalRevenueImpactHours == v.globalRevenueImpactHours
    ensures w.(hasLocalRevenueImpact := v.hasLocalRevenueImpact, localRevenueImpactHours := v.localRevenueImpactHours) == v
  {
    var flagged := v.(hasLocalRevenueImpact := Val(checked == Checked));
    if checked == Unchecked then flagged.(localRevenueImpactHours := Undefined) else flagged
  }

  /** No hours are kept for a box that is not set: what a user's clicks maintain. */
  predicate NoStaleHours(v: AssessmentInput) {
    && (v.globalRevenueImpactHours != Undefined ==> TruthyBool(v.hasGlobalRevenueImpact))
    && (v.localRevenueImpactHours != Undefined ==> TruthyBool(v.hasLocalRevenueImpact))
  }

  /** Checking and unchecking keep hours only for set boxes. */
  lemma ClicksKeepNoStaleHours(v: AssessmentInput, checked: CheckedState)
    requires NoStaleHours(v) && checked != Indeterminate
    ensures NoStaleHours(AfterGlobalChange(v, checked)) && NoStaleHours(AfterLocalChange(v, checked))
  {
  }

  /** "indeterminate" is truthy, so it clears the flag but keeps hours that are now hidden. */
  lemma IndeterminateKeepsHiddenHours(v: AssessmentInput, h: int)
    requires v.globalRevenueImpactHours == Val(h) && ShowOptions(v)
    ensures var w := AfterGlobalChange(v, Indeterminate);
            w.globalRevenueImpactHours == Val(h) && !ShowGlobalHours(w) && !NoStaleHours(w)
  {
  }

  /** Unchecking hides the hours input and leaves no hours behind; checking shows it within the options. */
  lemma ToggleVisibility(v: AssessmentInput)
    ensures !ShowGlobalHours(AfterGlobalChange(v, Unchecked))
    ensures AfterGlobalChange(v, Unchecked).globalRevenueImpactHours == Undefined
    ensures ShowGlobalHours(AfterGlobalChange(v, Checked)) <==> ShowOptions(v)
    ensures !ShowLocalHours(AfterLocalChange(v, Unchecked))
    ensures AfterLocalChange(v, Unchecked).localRevenueImpactHours == Undefined
    ensures ShowLocalHours(AfterLocalChange(v, Checked)) <==> ShowOptions(v)
  {
  }

  /** The two boxes are independent: their handlers commute. */
  lemma HandlersCommute(v: AssessmentInput, g: CheckedState, l: CheckedState)
    ensures AfterLocalChange(AfterGlobalChange(v, g), l) == AfterGlobalChange(AfterLocalChange(v, l), g)
  {
  }

  /** Reporting the same state twice changes nothing the second time. */
  lemma ChangeIdempotent(v: AssessmentInput, c: CheckedState)
    ensures AfterGlobalChange(AfterGlobalChange(v, c), c) == AfterGlobalChange(v, c)
    ensures AfterLocalChange(AfterLocalChange(v, c), c) == AfterLocalChange(v, c)
  {
  }

  /** The form's values as the section reads and writes them. */
  class RevenueImpactForm {
    var values: AssessmentInput

    constructor (initial: AssessmentInput)
      ensures values == initial
    {
      values := initial;
    }

    /** The global checkbox's `onCheckedChange`: set the flag, then clear the hours if unchecked. */
    method OnGlobalCheckedChange(checked: CheckedState)
      modifies this
      ensures values == AfterGlobalChange(old(values), checked)
    {
      values := values.(hasGlobalRevenueImpact := Val(checked == Checked));
      if checked == Unchecked {
        values := values.(globalRevenueImpactHours := Undefined);
      }
    }

    /** The local checkbox's `onCheckedChange`. */
    method OnLocalCheckedChange(checked: CheckedState)
      modifies this
      ensures values == AfterLocalChange(old(values), checked)
    {
      values := values.(hasLocalRevenueImpact := Val(checked == Checked));
      if checked == Unchecked {
        values := values.(localRevenueImpactHours := Undefined);
      }
    }

    /** The revenue-impact select. */
    method SetRevenueImpact(choice: string)
      modifies this
      ensures values == old(values).(revenueImpact := choice)
      ensures ShowOptions(values) <==> choice == "yes"
    {
      values := values.(revenueImpact := choice);
    }
  }
}
