/**
 * The label classifiers of the pollution map (`src/components/PollutionMap.tsx`):
 * the marker colour chosen from a plastic density index, the trend icon and the
 * water-clarity badge of the selected location.
 */
module PollutionMap {

  // ---------------------------------------------------------------------------
  // Marker colour by density

  const CriticalRed: string := "#ef4444"
  const HighAmber: string := "#f59e0b"
  const ModerateYellow: string := "#eab308"
  const LowGreen: string := "#10b981"

  /** The marker colours from the cleanest band to the most polluted. */
  const Palette: seq<string> := [LowGreen, ModerateYellow, HighAmber, CriticalRed]

  /** The density thresholds, in increasing order, that open the bands above the lowest. */
  const Thresholds: seq<int> := [30, 50, 70]

  /** `getColorByDensity`: the threshold chain, highest threshold first. */
  function ColorByDensity(density: int): (c: string)
    ensures c == CriticalRed <==> density >= 70
    ensures c == HighAmber <==> 50 <= density < 70
    ensures c == ModerateYellow <==> 30 <= density < 50
    ensures c == LowGreen <==> density < 30
  {
    if density >= 70 then CriticalRed
    else if density >= 50 then HighAmber
    else if density >= 30 then ModerateYellow
    else LowGreen
  }

  /** How many of the thresholds `ts` the density reaches. */
  function Reached(ts: seq<int>, density: int): (n: nat)
    ensures n <= |ts|
  {
    if ts == [] then 0
    else (if density >= ts[0] then 1 else 0) + Reached(ts[1..], density)
  }

  /** The band of a density: the number of thresholds it reaches. */
  function Band(density: int): (b: nat)
    ensures b < |Palette|
  {
    Reached(Thresholds, density)
  }

  /** The threshold chain picks the palette entry of the density's band. */
  lemma ColorIsPaletteBand(density: int)
    ensures ColorByDensity(density) == Palette[Band(density)]
  {
    var t1, t2, t3 := Thresholds[1..], Thresholds[2..], Thresholds[3..];
    assert t1 == [50, 70] && t1[1..] == t2 == [70] && t2[1..] == t3 == [];
    assert Reached(t2, density) == if density >= 70 then 1 else 0;
    assert Reached(t1, density) == (if density >= 50 then 1 else 0) + Reached(t2, density);
    assert Band(density) == (if density >= 30 then 1 else 0) + Reached(t1, density);
  }

  /** Reaching thresholds is monotone in the density. */
  lemma {:induction false} ReachedMonotone(ts: seq<int>, d1: int, d2: int)
    requires d1 <= d2
    ensures Reached(ts, d1) <= Reached(ts, d2)
    decreases |ts|
  {
    if ts != [] {
      ReachedMonotone(ts[1..], d1, d2);
    }
  }

  /** Raising the density never moves a marker to a cleaner colour. */
  lemma ColorMonotone(d1: int, d2: int)
    requires d1 <= d2
    ensures Band(d1) <= Band(d2)
    ensures Band(d1) == 3 ==> ColorByDensity(d2) == CriticalRed
    ensures ColorByDensity(d2) == LowGreen ==> ColorByDensity(d1) == LowGreen
  {
    ReachedMonotone(Thresholds, d1, d2);
    ColorIsPaletteBand(d1);
    ColorIsPaletteBand(d2);
  }

  /** The four marker colours are pairwise different, so every density has exactly one. */
  lemma PaletteDistinct()
    ensures forall i, j :: 0 <= i < j < |Palette| ==> Palette[i] != Palette[j]
  {
    assert Palette[0][1] != Palette[1][1] && Palette[0][1] != Palette[2][1] && Palette[0][1] != Palette[3][1];
    assert Palette[1][2] != Palette[2][2] && Palette[1][2] != Palette[3][2];
    assert Palette[2][1] != Palette[3][1];
  }

  /** The boundary densities land on the side the `>=` tests put them. */
  lemma ColorBoundaries()
    ensures ColorByDensity(70) == CriticalRed && ColorByDensity(69) == HighAmber
    ensures ColorByDensity(50) == HighAmber && ColorByDensity(49) == ModerateYellow
    ensures ColorByDensity(30) == ModerateYellow && ColorByDensity(29) == LowGreen
  {
  }

  // ---------------------------------------------------------------------------
  // Trend icon

  datatype TrendSymbol = TrendingUp | TrendingDown | Minus

  /** The icon and its colour class. */
  datatype TrendIcon = TrendIcon(symbol: TrendSymbol, colorClass: string)

  /** `getTrendIcon`: rising is red up, declining green down, anything else the neutral yellow dash. */
  function TrendIconOf(trend: string): (icon: TrendIcon)
    ensures icon.symbol == TrendingUp <==> trend == "Rising"
    ensures icon.symbol == TrendingDown <==> trend == "Declining"
    ensures icon.symbol == Minus <==> trend != "Rising" && trend != "Declining"
    ensures trend == "Rising" ==> icon == TrendIcon(TrendingUp, "text-red-500")
    ensures trend == "Declining" ==> icon == TrendIcon(TrendingDown, "text-green-500")
    ensures trend != "Rising" && trend != "Declining" ==> icon == TrendIcon(Minus, "text-yellow-500")
  {
    match trend
    case "Rising" => TrendIcon(TrendingUp, "text-red-500")
    case "Declining" => TrendIcon(TrendingDown, "text-green-500")
    case _ => TrendIcon(Minus, "text-yellow-500")
  }

  /** "Stable" has no case of its own: it and every unrecognised trend share the default icon. */
  lemma StableIsDefault(trend: string)
    requires trend != "Rising" && trend != "Declining"
    ensures TrendIconOf(trend) == TrendIconOf("Stable")
    ensures TrendIconOf(trend) == TrendIcon(Minus, "text-yellow-500")
  {
  }

  /** The colour class goes with the symbol: the same symbol always has the same colour. */
  lemma TrendColorFollowsSymbol(t1: string, t2: string)
    ensures TrendIconOf(t1).symbol == TrendIconOf(t2).symbol <==> TrendIconOf(t1) == TrendIconOf(t2)
  {
  }

  // ---------------------------------------------------------------------------
  // Clarity badge

  const ClarityDefault: string := "text-gray-600 bg-gray-100"

  /** `getClarityColor`: a fixed badge per clarity level, gray for any other string. */
  function ClarityColor(clarity: string): (c: string)
    ensures c == ClarityDefault <==> clarity !in {"Clear", "Moderate", "Poor"}
    ensures clarity == "Clear" <==> c == "text-green-600 bg-green-100"
    ensures clarity == "Moderate" <==> c == "text-yellow-600 bg-yellow-100"
    ensures clarity == "Poor" <==> c == "text-red-600 bg-red-100"
  {
    match clarity
    case "Clear" => "text-green-600 bg-green-100"
    case "Moderate" => "text-yellow-600 bg-yellow-100"
    case "Poor" => "text-red-600 bg-red-100"
    case _ => ClarityDefault
  }
}
