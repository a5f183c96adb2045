/**
 * The risk classification behind the pollen display: a reading (or no
 * reading) is mapped to a risk category, and the category to the
 * recommendation text and the colour style the panel shows.
 */
module PollenDisplay {
  import opened Wrappers

  datatype RiskCategory = Low | Moderate | High

  /** Highest reading that is still low risk. */
  const LowMax := 30
  /** Highest reading that is still moderate risk. */
  const ModerateMax := 60

  const LowAdvice := "Safe to go outside."
  const ModerateAdvice := "Mild risk — sensitive individuals beware."
  const HighAdvice := "High pollen count! Stay indoors."

  const LowStyle := "from-emerald-100 to-emerald-50 text-emerald-800 border-emerald-200"
  const ModerateStyle := "from-amber-100 to-amber-50 text-amber-800 border-amber-200"
  const HighStyle := "from-rose-100 to-rose-50 text-rose-800 border-rose-200"
  const DefaultStyle := "from-slate-100 to-slate-50 text-slate-800 border-slate-200"

  /** Severity order of the categories. */
  function Rank(c: RiskCategory): nat {
    match c
    case Low => 0
    case Moderate => 1
    case High => 2
  }

  /** `getRiskCategory`: no reading has no category; otherwise thresholds 30 and 60. */
  function GetRiskCategory(level: Option<int>): (r: Option<RiskCategory>)
    ensures r.None? <==> level.None?
    ensures r == Some(Low) <==> level.Some? && level.value <= LowMax
    ensures r == Some(Moderate) <==> level.Some? && LowMax < level.value <= ModerateMax
    ensures r == Some(High) <==> level.Some? && ModerateMax < level.value
  {
    if level.None? then None
    else if level.value <= 30 then Some(Low)
    else if level.value <= 60 then Some(Moderate)
    else Some(High)
  }

  /** A higher reading never gets a less severe category. */
  lemma RiskMonotone(a: int, b: int)
    requires a <= b
    ensures GetRiskCategory(Some(a)).Some? && GetRiskCategory(Some(b)).Some?
    ensures Rank(GetRiskCategory(Some(a)).value) <= Rank(GetRiskCategory(Some(b)).value)
  {
  }

  /** `getRecommendation`: a fixed text per category, and the empty text for none. */
  function GetRecommendation(c: Option<RiskCategory>): (r: string)
    ensures r != "" <==> c.Some?
    ensures c == Some(High) ==> r == HighAdvice
  {
    match c
    case Some(Low) => LowAdvice
    case Some(Moderate) => ModerateAdvice
    case Some(High) => HighAdvice
    case None => ""
  }

  /** Different categories (none included) never share a recommendation. */
  lemma RecommendationsDistinct(c: Option<RiskCategory>, d: Option<RiskCategory>)
    requires c != d
    ensures GetRecommendation(c) != GetRecommendation(d)
  {
  }

  /** `categoryStyles`: a style per category; anything else falls to the slate default. */
  function CategoryStyles(c: Option<RiskCategory>): (r: string)
    ensures c.None? <==> r == DefaultStyle
  {
    match c
    case Some(Low) => LowStyle
    case Some(Moderate) => ModerateStyle
    case Some(High) => HighStyle
    case None => DefaultStyle
  }

  /** The four styles are pairwise distinct. */
  lemma StylesDistinct(c: Option<RiskCategory>, d: Option<RiskCategory>)
    requires c != d
    ensures CategoryStyles(c) != CategoryStyles(d)
  {
  }

  /** What the panel shows for a reading: the advice appears exactly when there is a reading. */
  lemma DisplayForReading(level: Option<int>)
    ensures GetRecommendation(GetRiskCategory(level)) != "" <==> level.Some?
    ensures CategoryStyles(GetRiskCategory(level)) == DefaultStyle <==> level.None?
    ensures level.Some? && level.value > ModerateMax ==> GetRecommendation(GetRiskCategory(level)) == HighAdvice
  {
  }
}
