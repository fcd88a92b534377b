/**
 * The local estimator: the deterministic forecast used whenever the
 * prediction service is unavailable or its replies are incomplete.
 * Per-region base costs are scaled by a risk multiplier, a population
 * multiplier (not for tourism) and a linear year factor, each component is
 * rounded, and the total is their exact sum.
 */
module LocalEstimator {
  import opened ForecastTypes

  /** Base costs in USD of one region, per loss category. */
  datatype BaseCosts = BaseCosts(property: int, business: int, tourism: int, health: int)

  const CaliforniaCosts := BaseCosts(300000, 100000, 75000, 25000)

  /** The region's base costs; a region without a table entry uses California's. */
  function RegionBaseCosts(region: Region): (c: BaseCosts)
    ensures c.property > 0 && c.business > 0 && c.tourism > 0 && c.health > 0
    ensures region !in Regions ==> c == CaliforniaCosts
  {
    match region
    case California => CaliforniaCosts
    case Oregon => BaseCosts(150000, 50000, 30000, 20000)
    case Washington => BaseCosts(200000, 75000, 50000, 25000)
    case Colorado => BaseCosts(160000, 55000, 40000, 20000)
    case Arizona => BaseCosts(180000, 70000, 50000, 20000)
    case Nevada => BaseCosts(130000, 40000, 35000, 15000)
    case Idaho => BaseCosts(110000, 30000, 25000, 15000)
    case Montana => BaseCosts(120000, 35000, 30000, 15000)
    case OtherRegion(_) => CaliforniaCosts
  }

  /** The risk multiplier; an unknown level uses 1.5, the same as "Medium". */
  function RiskMultiplier(riskLevel: Level): (m: real)
    ensures 0.8 <= m <= 4.0
    ensures riskLevel !in RiskLevels ==> m == 1.5
  {
    match riskLevel
    case Low => 0.8
    case Medium => 1.5
    case High => 2.5
    case Extreme => 4.0
    case Unrecognized => 1.5
  }

  /** The population multiplier; an unknown density uses 1.0, the same as "Medium". */
  function PopulationMultiplier(density: Level): (m: real)
    ensures 0.8 <= m <= 1.3
    ensures density !in DensityLevels ==> m == 1.0
  {
    match density
    case Low => 0.8
    case Medium => 1.0
    case High => 1.3
    case _ => 1.0
  }

  /** Five percent more per year after 2024 (and less per year before it). */
  function YearFactor(year: int): (f: real)
    ensures year >= 2024 ==> f >= 1.0
    ensures f - YearFactorStep * (year - 2024) as real == 1.0
  {
    1.0 + (year - 2024) as real * 0.05
  }

  const YearFactorStep: real := 0.05

  /** The fire severity index the estimator reports; an unknown level reports 5. */
  function FsiFor(riskLevel: Level): (fsi: int)
    ensures fsi in {3, 5, 7, 9}
    ensures riskLevel !in RiskLevels ==> fsi == 5
  {
    match riskLevel
    case Low => 3
    case Medium => 5
    case High => 7
    case Extreme => 9
    case Unrecognized => 5
  }

  const DefaultStrategy := RecoveryStrategy(
    "Standard monitoring and preparation recommended.", ["Monitoring", "Prevention", "Education"])

  /** The strategy keyed by the risk level: two tags for a known level, the three default tags otherwise. */
  function StrategyFor(riskLevel: Level): (s: RecoveryStrategy)
    ensures riskLevel in RiskLevels ==> |s.tags| == 2
    ensures riskLevel !in RiskLevels ==> s == DefaultStrategy
  {
    match riskLevel
    case Low => RecoveryStrategy("Minimal intervention needed.", ["Monitoring", "Prevention"])
    case Medium => RecoveryStrategy("Targeted planning recommended.", ["Preparedness", "Planning"])
    case High => RecoveryStrategy("Comprehensive recovery required.", ["Federal Support", "Business Grants"])
    case Extreme => RecoveryStrategy("Urgent intervention required.", ["Emergency Funds", "Redevelopment"])
    case Unrecognized => DefaultStrategy
  }

  /** The scaling applied to property, business and health costs. */
  function DensityScaledFactor(data: ForecastInput): real {
    RiskMultiplier(data.fireRisk) * PopulationMultiplier(data.populationDensity) * YearFactor(data.year)
  }

  /** The scaling applied to tourism, which ignores population density. */
  function TourismFactor(data: ForecastInput): real {
    RiskMultiplier(data.fireRisk) * YearFactor(data.year)
  }

  /** The estimate built from a region's base costs, the two scaling factors and the risk level. */
  function Estimate(base: BaseCosts, densityFactor: real, tourismFactor: real, riskLevel: Level): (r: ForecastResult)
    ensures r.totalLoss == ComponentSum(r)
    ensures ChartShowsComponents(r)
  {
    var pd := Round(base.property as real * densityFactor);
    var bd := Round(base.business as real * densityFactor);
    var tl := Round(base.tourism as real * tourismFactor);
    var hc := Round(base.health as real * densityFactor);
    ForecastResult(
      pd + bd + tl + hc, pd, bd, tl, hc,
      FsiFor(riskLevel) as real,
      StrategyFor(riskLevel),
      ChartData(pd, bd, tl, hc))
  }

  function CalculateForecastResults(data: ForecastInput): (r: ForecastResult)
    ensures r.totalLoss == ComponentSum(r)
    ensures ChartShowsComponents(r)
    ensures r.predictedFSI == FsiFor(data.fireRisk) as real
    ensures r.recoveryStrategy == StrategyFor(data.fireRisk)
  {
    Estimate(RegionBaseCosts(data.region), DensityScaledFactor(data), TourismFactor(data), data.fireRisk)
  }

  /** Changing only the population density leaves the tourism loss unchanged. */
  lemma TourismIgnoresDensity(data: ForecastInput, density: Level)
    ensures CalculateForecastResults(data.(populationDensity := density)).tourismLoss
         == CalculateForecastResults(data).tourismLoss
  {
    assert TourismFactor(data.(populationDensity := density)) == TourismFactor(data);
  }

  /** A region without a table entry is estimated exactly as California. */
  lemma UnknownRegionIsCalifornia(data: ForecastInput)
    requires data.region !in Regions
    ensures CalculateForecastResults(data) == CalculateForecastResults(data.(region := California))
  {
    var c := data.(region := California);
    assert RegionBaseCosts(data.region) == RegionBaseCosts(c.region);
    assert DensityScaledFactor(data) == DensityScaledFactor(c);
    assert TourismFactor(data) == TourismFactor(c);
  }

  /** An unknown density is estimated exactly as "Medium". */
  lemma UnknownDensityIsMedium(data: ForecastInput)
    requires data.populationDensity !in DensityLevels
    ensures CalculateForecastResults(data) == CalculateForecastResults(data.(populationDensity := Medium))
  {
    var m := data.(populationDensity := Medium);
    assert RegionBaseCosts(data.region) == RegionBaseCosts(m.region);
    assert DensityScaledFactor(data) == DensityScaledFactor(m);
    assert TourismFactor(data) == TourismFactor(m);
  }

  /**
   * An unknown risk level costs and scores as "Medium" (multiplier 1.5, FSI 5)
   * but gets the default strategy text and its three tags.
   */
  lemma UnknownRiskCostsAsMedium(data: ForecastInput)
    requires data.fireRisk !in RiskLevels
    ensures var r, m := CalculateForecastResults(data), CalculateForecastResults(data.(fireRisk := Medium));
      && r.(recoveryStrategy := m.recoveryStrategy) == m
      && r.predictedFSI == 5.0
      && r.recoveryStrategy.text == "Standard monitoring and preparation recommended."
      && r.recoveryStrategy.tags == ["Monitoring", "Prevention", "Education"]
  {
    var m := data.(fireRisk := Medium);
    assert RegionBaseCosts(data.region) == RegionBaseCosts(m.region);
    assert DensityScaledFactor(data) == DensityScaledFactor(m);
    assert TourismFactor(data) == TourismFactor(m);
    assert FsiFor(data.fireRisk) == FsiFor(Medium);
  }

  lemma MulMonotone(k: real, x: real, y: real)
    requires k >= 0.0 && x <= y
    ensures k * x <= k * y
  {
    assert k * y - k * x == k * (y - x);
  }

  lemma FactorAtLeast(rm: real, pm: real, yf: real)
    requires rm >= 0.8 && pm >= 0.8 && yf >= 1.0
    ensures rm * pm * yf >= 0.64 && rm * yf >= 0.8
  {
    MulMonotone(pm, 0.8, rm);
    MulMonotone(rm * pm, 1.0, yf);
    MulMonotone(rm, 1.0, yf);
  }

  lemma EstimatePositive(base: BaseCosts, densityFactor: real, tourismFactor: real, riskLevel: Level)
    requires base.property > 0 && base.business > 0 && base.tourism > 0 && base.health > 0
    requires densityFactor >= 0.64 && tourismFactor >= 0.64
    ensures var r := Estimate(base, densityFactor, tourismFactor, riskLevel);
      r.propertyDamage > 0 && r.businessDisruption > 0 && r.tourismLoss > 0 && r.healthCosts > 0
  {
    MulMonotone(densityFactor, 1.0, base.property as real);
    MulMonotone(densityFactor, 1.0, base.business as real);
    MulMonotone(tourismFactor, 1.0, base.tourism as real);
    MulMonotone(densityFactor, 1.0, base.health as real);
  }

  /** From 2024 on every loss component is positive, and so is the total. */
  lemma ComponentsPositiveFromBaseYear(data: ForecastInput)
    requires data.year >= 2024
    ensures var r := CalculateForecastResults(data);
      r.propertyDamage > 0 && r.businessDisruption > 0 && r.tourismLoss > 0 && r.healthCosts > 0 && r.totalLoss > 0
  {
    FactorAtLeast(RiskMultiplier(data.fireRisk), PopulationMultiplier(data.populationDensity), YearFactor(data.year));
    EstimatePositive(RegionBaseCosts(data.region), DensityScaledFactor(data), TourismFactor(data), data.fireRisk);
  }

  lemma FactorGrows(rm: real, pm: real, yf: real, later: real)
    requires rm >= 0.0 && pm >= 0.0 && yf <= later
    ensures rm * pm * yf <= rm * pm * later && rm * yf <= rm * later
  {
    MulMonotone(pm, 0.0, rm);
    MulMonotone(rm * pm, yf, later);
    MulMonotone(rm, yf, later);
  }

  lemma EstimateGrows(base: BaseCosts, df: real, tf: real, df': real, tf': real, riskLevel: Level)
    requires base.property >= 0 && base.business >= 0 && base.tourism >= 0 && base.health >= 0
    requires df <= df' && tf <= tf'
    ensures var r, s := Estimate(base, df, tf, riskLevel), Estimate(base, df', tf', riskLevel);
      && r.propertyDamage <= s.propertyDamage && r.businessDisruption <= s.businessDisruption
      && r.tourismLoss <= s.tourismLoss && r.healthCosts <= s.healthCosts
  {
    ScaledGrows(base.property, df, df');
    ScaledGrows(base.business, df, df');
    ScaledGrows(base.tourism, tf, tf');
    ScaledGrows(base.health, df, df');
  }

  lemma ScaledGrows(base: int, factor: real, larger: real)
    requires base >= 0 && factor <= larger
    ensures Round(base as real * factor) <= Round(base as real * larger)
  {
    MulMonotone(base as real, factor, larger);
    RoundMonotone(base as real * factor, base as real * larger);
  }

  /** A later target year never lowers any component of the estimate, nor the total. */
  lemma LossGrowsWithYear(data: ForecastInput, later: int)
    requires data.year <= later
    ensures var r, s := CalculateForecastResults(data), CalculateForecastResults(data.(year := later));
      && r.propertyDamage <= s.propertyDamage && r.businessDisruption <= s.businessDisruption
      && r.tourismLoss <= s.tourismLoss && r.healthCosts <= s.healthCosts && r.totalLoss <= s.totalLoss
  {
    var d := data.(year := later);
    FactorGrows(RiskMultiplier(data.fireRisk), PopulationMultiplier(data.populationDensity), YearFactor(data.year), YearFactor(later));
    assert RegionBaseCosts(d.region) == RegionBaseCosts(data.region);
    assert DensityScaledFactor(data) <= DensityScaledFactor(d);
    assert TourismFactor(data) <= TourismFactor(d);
    EstimateGrows(RegionBaseCosts(data.region), DensityScaledFactor(data), TourismFactor(data),
                  DensityScaledFactor(d), TourismFactor(d), data.fireRisk);
  }

  /** Oregon, 2024, Medium risk, Medium density. */
  lemma OregonMediumScenario()
    ensures var r := CalculateForecastResults(ForecastInput(Oregon, 2024, Medium, Medium));
      && r.propertyDamage == 225000 && r.businessDisruption == 75000
      && r.tourismLoss == 45000 && r.healthCosts == 30000 && r.totalLoss == 375000
      && r.predictedFSI == 5.0 && r.recoveryStrategy.tags == ["Preparedness", "Planning"]
  {
  }

  /** California, 2030, Extreme risk, High density: a year factor of 1.3 on top of the population factor 1.3. */
  lemma CaliforniaExtremeScenario()
    ensures var r := CalculateForecastResults(ForecastInput(California, 2030, Extreme, High));
      && r.propertyDamage == 2028000 && r.businessDisruption == 676000
      && r.tourismLoss == 390000 && r.healthCosts == 169000 && r.totalLoss == 3263000
      && r.predictedFSI == 9.0 && r.recoveryStrategy.tags == ["Emergency Funds", "Redevelopment"]
  {
  }
}
