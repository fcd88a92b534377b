/**
 * The feature mapper: turns the categorical form input into the numeric
 * feature record posted to the prediction service.
 */
module FeatureMapper {
  import opened ForecastTypes

  /**
   * The feature record, sent as the JSON keys Region, Year, FireRiskLevel,
   * PopulationDensity, VegetationDensity, AverageTemperature,
   * PreviousFireHistory, WindSpeed and Humidity.
   */
  datatype ApiFeatures = ApiFeatures(
    region: Region,
    year: int,
    fireRiskLevel: int,
    populationDensity: int,
    vegetationDensity: int,
    averageTemperature: int,
    previousFireHistory: int,
    windSpeed: int,
    humidity: int)

  /**
   * The numeric code of a fire-risk level: its 1-based position in the
   * form's list of levels, or 1 for any other string.
   */
  function GetRiskLevelNumeric(riskLevel: Level): (code: int)
    ensures 1 <= code <= |RiskLevels|
    ensures riskLevel in RiskLevels ==> RiskLevels[code - 1] == riskLevel
    ensures riskLevel !in RiskLevels ==> code == 1
  {
    match riskLevel
    case Low => 1
    case Medium => 2
    case High => 3
    case Extreme => 4
    case Unrecognized => 1
  }

  /**
   * The numeric code of a population density: its 1-based position in the
   * form's list of densities, or 1 for any other string.
   */
  function GetPopulationDensityNumeric(density: Level): (code: int)
    ensures 1 <= code <= |DensityLevels|
    ensures density in DensityLevels ==> DensityLevels[code - 1] == density
    ensures density !in DensityLevels ==> code == 1
  {
    match density
    case Low => 1
    case Medium => 2
    case High => 3
    case _ => 1
  }

  /**
   * The feature record: region and year passed through, the two codes, and
   * five placeholder constants that do not depend on the input.
   */
  function PrepareApiFeatures(input: ForecastInput): (f: ApiFeatures)
    ensures f.region == input.region && f.year == input.year
    ensures f.fireRiskLevel == GetRiskLevelNumeric(input.fireRisk)
    ensures f.populationDensity == GetPopulationDensityNumeric(input.populationDensity)
    ensures 1 <= f.fireRiskLevel <= 4 && 1 <= f.populationDensity <= 3
    ensures f.vegetationDensity == 2 && f.averageTemperature == 25 && f.previousFireHistory == 1
    ensures f.windSpeed == 10 && f.humidity == 40
  {
    ApiFeatures(
      input.region,
      input.year,
      GetRiskLevelNumeric(input.fireRisk),
      GetPopulationDensityNumeric(input.populationDensity),
      2, 25, 1, 10, 40)
  }

  /** On the form's own options no information is lost: distinct form inputs give distinct feature records. */
  lemma FeaturesDetermineFormInput(a: ForecastInput, b: ForecastInput)
    requires FromForm(a) && FromForm(b)
    requires PrepareApiFeatures(a) == PrepareApiFeatures(b)
    ensures a == b
  {
    var fa, fb := PrepareApiFeatures(a), PrepareApiFeatures(b);
    assert RiskLevels[fa.fireRiskLevel - 1] == a.fireRisk;
    assert RiskLevels[fb.fireRiskLevel - 1] == b.fireRisk;
    assert DensityLevels[fa.populationDensity - 1] == a.populationDensity;
    assert DensityLevels[fb.populationDensity - 1] == b.populationDensity;
  }

  /** Outside the form's options the mapper collapses every unknown level onto "Low". */
  lemma UnknownLevelsLookLikeLow(input: ForecastInput)
    requires input.fireRisk !in RiskLevels && input.populationDensity !in DensityLevels
    ensures PrepareApiFeatures(input) == PrepareApiFeatures(input.(fireRisk := Low, populationDensity := Low))
  {
  }
}
