/** The badge that shows a risk level: a capitalised label on a level-specific colour. */
module RiskLevelBadge {
  import opened JsValues
  import opened JsStrings

  predicate IsRiskLevel(level: string) {
    level in {"low", "medium", "high", "critical"}
  }

  /** The badge's `colors` table. */
  function ColourClass(level: string): (r: Option<string>)
    ensures r.Some? <==> IsRiskLevel(level)
  {
    match level
    case "low" => Some("bg-risk-low text-white")
    case "medium" => Some("bg-risk-medium text-white")
    case "high" => Some("bg-risk-high text-white")
    case "critical" => Some("bg-risk-critical text-white")
    case _ => None
  }

  /** The badge text: the level with its first character upper-cased and the rest unchanged. */
  function Label(level: string): (r: string)
    ensures |r| == |level|
    ensures level != "" ==> r[0] == UpperChar(level[0]) && r[1..] == level[1..]
    ensures SameUpToCase(r, level)
  {
    Capitalize(level)
  }

  /** No two levels share a colour. */
  lemma ColoursDistinct(a: string, b: string)
    requires IsRiskLevel(a) && IsRiskLevel(b) && a != b
    ensures ColourClass(a) != ColourClass(b)
  {
  }

  /** The four levels are written in lower case. */
  lemma LevelsAreLowerCase(level: string)
    requires IsRiskLevel(level)
    ensures forall i | 0 <= i < |level| :: !('A' <= level[i] <= 'Z')
  {
    if level == "low" {
    } else if level == "medium" {
    } else if level == "high" {
    } else {
      assert level == "critical";
    }
  }

  /** Lower-casing the label of any of the four levels gives the level back. */
  lemma LabelRoundTrip(level: string)
    requires IsRiskLevel(level)
    ensures Lower(Label(level)) == level
  {
    LevelsAreLowerCase(level);
    LowerCapitalize(level);
  }
}
