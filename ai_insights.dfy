/**
 * The prediction cards of the AI insights page (`src/components/AIInsights.tsx`):
 * the risk-level colour strip and icon, and which factor panels a card shows.
 */
module AIInsights {
  import opened Wrappers
  import opened Schema

  const RiskDefault: string := "from-gray-500 to-gray-600"

  /** `getRiskColor`: the card's gradient strip; any unknown level gets gray rather than failing. */
  function RiskColor(level: string): (c: string)
    ensures level == "High" <==> c == "from-red-500 to-red-600"
    ensures level == "Moderate" <==> c == "from-yellow-500 to-orange-500"
    ensures level == "Low" <==> c == "from-green-500 to-green-600"
    ensures c == RiskDefault <==> level !in {"High", "Moderate", "Low"}
  {
    match level
    case "High" => "from-red-500 to-red-600"
    case "Moderate" => "from-yellow-500 to-orange-500"
    case "Low" => "from-green-500 to-green-600"
    case _ => RiskDefault
  }

  datatype RiskSymbol = AlertCircle | TrendingUp | CheckCircle

  datatype RiskIcon = RiskIcon(symbol: RiskSymbol, colorClass: string)

  /** `getRiskIcon`: an icon for each known level, nothing at all for any other. */
  function RiskIconOf(level: string): (icon: Option<RiskIcon>)
    ensures icon == Some(RiskIcon(AlertCircle, "text-red-600")) <==> level == "High"
    ensures icon == Some(RiskIcon(TrendingUp, "text-yellow-600")) <==> level == "Moderate"
    ensures icon == Some(RiskIcon(CheckCircle, "text-green-600")) <==> level == "Low"
    ensures icon.None? <==> level !in {"High", "Moderate", "Low"}
  {
    match level
    case "High" => Some(RiskIcon(AlertCircle, "text-red-600"))
    case "Moderate" => Some(RiskIcon(TrendingUp, "text-yellow-600"))
    case "Low" => Some(RiskIcon(CheckCircle, "text-green-600"))
    case _ => None
  }

  /** The strip and the icon degrade together: a level has no icon exactly when its strip is gray. */
  lemma IconAndColorAgree(level: string)
    ensures RiskIconOf(level).None? <==> RiskColor(level) == RiskDefault
  {
  }

  /** Two levels with the same strip colour have the same icon. */
  lemma IconFollowsColor(l1: string, l2: string)
    requires RiskColor(l1) == RiskColor(l2)
    ensures RiskIconOf(l1) == RiskIconOf(l2)
  {
  }

  /** A JavaScript string value in a condition: present and non-empty. */
  predicate Truthy(s: Option<string>)
  {
    s.Some? && s.value != ""
  }

  datatype FactorPanel = WeatherPanel | HotspotsPanel | HistoricalTrendPanel

  /**
   * The factor panels of a card, in display order: weather and historical trend
   * when their text is truthy, waste hotspots whenever the count is defined.
   */
  function FactorPanels(f: PredictionFactors): (ps: seq<FactorPanel>)
    ensures WeatherPanel in ps <==> Truthy(f.weather)
    ensures HotspotsPanel in ps <==> f.wasteHotspots.Some?
    ensures HistoricalTrendPanel in ps <==> Truthy(f.historicalTrend)
    ensures forall i, j :: 0 <= i < j < |ps| ==> ps[i] != ps[j]
  {
    (if Truthy(f.weather) then [WeatherPanel] else [])
    + (if f.wasteHotspots.Some? then [HotspotsPanel] else [])
    + (if Truthy(f.historicalTrend) then [HistoricalTrendPanel] else [])
  }

  /** A count of zero still shows the hotspots panel, while an empty weather text hides its panel. */
  lemma ZeroHotspotsShown(f: PredictionFactors)
    requires f.wasteHotspots == Some(0) && f.weather == Some("")
    ensures HotspotsPanel in FactorPanels(f)
    ensures WeatherPanel !in FactorPanels(f)
  {
  }

  /** The panels shown for a whole prediction row. */
  function CardPanels(p: AIPrediction): (ps: seq<FactorPanel>)
    ensures |ps| <= 3
    ensures ps == [] <==> !Truthy(p.factors.weather) && p.factors.wasteHotspots.None?
                          && !Truthy(p.factors.historicalTrend)
  {
    FactorPanels(p.factors)
  }
}
