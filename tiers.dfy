/** The two severity scales of the dashboard: the four-tier risk
    classification returned by the analysis, and the three-tier status
    carried by child records. Components receive both as strings and switch
    on the string, so each scale comes with its wire names and a parser. */
module Tiers {
  import opened JsValues

  datatype Risk = Low | Moderate | High | Critical

  datatype Status = Normal | Warning | Danger

  /** Position of a tier on the severity order low < moderate < high < critical. */
  function Severity(r: Risk): (n: nat)
    ensures n <= 3
  {
    match r
    case Low => 0
    case Moderate => 1
    case High => 2
    case Critical => 3
  }

  lemma SeverityIsOrder(r1: Risk, r2: Risk)
    ensures Severity(r1) == Severity(r2) <==> r1 == r2
  {
  }

  function RiskName(r: Risk): string
  {
    match r
    case Low => "low"
    case Moderate => "moderate"
    case High => "high"
    case Critical => "critical"
  }

  /** Reads a classification string; anything but the four wire names is
      unrecognised. */
  function ParseRisk(s: string): (r: Option<Risk>)
    ensures r.Some? ==> RiskName(r.value) == s
    ensures r.None? <==> s != "low" && s != "moderate" && s != "high" && s != "critical"
  {
    if s == "low" then Some(Low)
    else if s == "moderate" then Some(Moderate)
    else if s == "high" then Some(High)
    else if s == "critical" then Some(Critical)
    else None
  }

  lemma ParseRiskName(r: Risk)
    ensures ParseRisk(RiskName(r)) == Some(r)
  {
  }

  function StatusName(s: Status): string
  {
    match s
    case Normal => "normal"
    case Warning => "warning"
    case Danger => "danger"
  }

  function ParseStatus(s: string): (r: Option<Status>)
    ensures r.Some? ==> StatusName(r.value) == s
    ensures r.None? <==> s != "normal" && s != "warning" && s != "danger"
  {
    if s == "normal" then Some(Normal)
    else if s == "warning" then Some(Warning)
    else if s == "danger" then Some(Danger)
    else None
  }

  lemma ParseStatusName(s: Status)
    ensures ParseStatus(StatusName(s)) == Some(s)
  {
  }
}
