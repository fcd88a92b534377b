/**
 * The values that flow through the FireGuard forecast pipeline: the input
 * collected from the forecast form, the result shown on the results page,
 * the option lists the form offers, and JavaScript's Math.round on exact
 * rationals.
 */
module ForecastTypes {

  /**
   * A region as submitted: one of the eight listed states, or any other
   * name (which no lookup table has an entry for).
   */
  datatype Region =
    | California | Oregon | Washington | Colorado | Arizona | Nevada | Idaho | Montana
    | OtherRegion(name: string)

  /**
   * A fire-risk or population-density level as submitted. Unrecognized
   * stands for any string other than the four level names; for a density,
   * Extreme is not in any table either.
   */
  datatype Level = Low | Medium | High | Extreme | Unrecognized

  /** One submission of the forecast form: region, target year, fire-risk level, population density. */
  datatype ForecastInput = ForecastInput(region: Region, year: int, fireRisk: Level, populationDensity: Level)

  /** One bar of the results chart (the category is the bar's label). */
  datatype ChartBar = ChartBar(category: string, value: int, color: string)

  /** The recommendation shown under the chart. */
  datatype RecoveryStrategy = RecoveryStrategy(text: string, tags: seq<string>)

  /** What the results page displays for one forecast. */
  datatype ForecastResult = ForecastResult(
    totalLoss: int,
    propertyDamage: int,
    businessDisruption: int,
    tourismLoss: int,
    healthCosts: int,
    predictedFSI: real,
    recoveryStrategy: RecoveryStrategy,
    chartData: seq<ChartBar>)

  /** The options of the form's region, year, fire-risk and population-density selects, in display order. */
  const Regions: seq<Region> := [California, Oregon, Washington, Colorado, Arizona, Nevada, Idaho, Montana]
  const Years: seq<int> := [2024, 2025, 2026, 2027, 2028, 2029, 2030]
  const RiskLevels: seq<Level> := [Low, Medium, High, Extreme]
  const DensityLevels: seq<Level> := [Low, Medium, High]

  /** An input every field of which is one of the form's options. */
  predicate FromForm(input: ForecastInput) {
    && input.region in Regions
    && input.year in Years
    && input.fireRisk in RiskLevels
    && input.populationDensity in DensityLevels
  }

  /**
   * Math.round: the nearest integer, halves rounded towards +infinity.
   * The two bounds determine the result uniquely.
   */
  function Round(x: real): (r: int)
    ensures x - 0.5 < r as real <= x + 0.5
  {
    (x + 0.5).Floor
  }

  lemma RoundMonotone(x: real, y: real)
    requires x <= y
    ensures Round(x) <= Round(y)
  {
  }

  /** The chart lists Property, Business, Tourism and Health, in that order. */
  function ChartData(property: int, business: int, tourism: int, health: int): (bars: seq<ChartBar>)
    ensures |bars| == 4
  {
    [ ChartBar("Property", property, "#1e5631"),
      ChartBar("Business", business, "#1e88e5"),
      ChartBar("Tourism", tourism, "#ff6b35"),
      ChartBar("Health", health, "#ffd166") ]
  }

  /** The chart shows the four loss components of the result, labelled, in display order. */
  predicate ChartShowsComponents(r: ForecastResult) {
    && |r.chartData| == 4
    && r.chartData[0].category == "Property" && r.chartData[0].value == r.propertyDamage
    && r.chartData[1].category == "Business" && r.chartData[1].value == r.businessDisruption
    && r.chartData[2].category == "Tourism" && r.chartData[2].value == r.tourismLoss
    && r.chartData[3].category == "Health" && r.chartData[3].value == r.healthCosts
  }

  /** The sum of the four loss components. */
  function ComponentSum(r: ForecastResult): int {
    r.propertyDamage + r.businessDisruption + r.tourismLoss + r.healthCosts
  }
}
