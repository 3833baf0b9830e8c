/**
 * The row shapes of the four collections the components read from the store
 * (`src/lib/supabase.ts`). The client itself is not part of this model.
 *
 * The enumerated fields (`category`, `status`, `water_clarity_level`,
 * `pollution_trend`, `risk_level`, `type`) are plain strings here, because the
 * components look them up with a default branch for any other value.
 * JavaScript numbers become `real` for coordinates and scores and `int` for
 * the density index and the counts.
 */
module Schema {
  import opened Wrappers

  /** A citizen-submitted observation (`PollutionReport`). */
  datatype PollutionReport = PollutionReport(
    id: string,
    locationLat: real,
    locationLng: real,
    category: string,
    description: string,
    photoUrl: Option<string>,
    plasticDensityIndex: int,
    waterClarityLevel: string,
    reportedBy: string,
    status: string,
    createdAt: string)

  /** A monitored location's latest snapshot (`PollutionMetric`). */
  datatype PollutionMetric = PollutionMetric(
    id: string,
    locationLat: real,
    locationLng: real,
    locationName: string,
    plasticDensityIndex: int,
    waterClarityLevel: string,
    microplasticCount: int,
    pollutionTrend: string,
    lastUpdated: string,
    createdAt: string)

  /** The optional contributing factors of a prediction; an absent key is `None`. */
  datatype PredictionFactors = PredictionFactors(
    weather: Option<string>,
    wasteHotspots: Option<int>,
    historicalTrend: Option<string>)

  /** A precomputed risk forecast (`AIPrediction`). */
  datatype AIPrediction = AIPrediction(
    id: string,
    locationLat: real,
    locationLng: real,
    riskLevel: string,
    predictionText: string,
    confidenceScore: real,
    factors: PredictionFactors,
    validUntil: string,
    createdAt: string)

  /** A responder organization (`Organization`); `type` is `orgType` here. */
  datatype Organization = Organization(
    id: string,
    name: string,
    orgType: string,
    locationLat: real,
    locationLng: real,
    address: string,
    phone: Option<string>,
    email: Option<string>,
    website: Option<string>,
    createdAt: string)
}
