/**
 * Remote shaping: turns the two replies of the prediction service into the
 * displayed result. The predicted loss is rounded to the total, which is
 * split 60/20/15/5 into property, business, tourism and health shares, each
 * rounded on its own; the FSI and the suggested response are copied from
 * the severity reply and the tags come from the recovery tag rule.
 */
module RemoteShaping {
  import opened ForecastTypes
  import opened RecoveryTags

  /** The share is the nearest integer (halves up) to the given fraction of the total. */
  predicate NearestShare(share: int, total: int, fraction: real) {
    total as real * fraction - 0.5 < share as real <= total as real * fraction + 0.5
  }

  function CreateResults(input: ForecastInput, loss: real, fsi: real, response: string): (r: ForecastResult)
    ensures r.totalLoss == Round(loss)
    ensures NearestShare(r.propertyDamage, r.totalLoss, 0.6) && NearestShare(r.businessDisruption, r.totalLoss, 0.2)
    ensures NearestShare(r.tourismLoss, r.totalLoss, 0.15) && NearestShare(r.healthCosts, r.totalLoss, 0.05)
    ensures ChartShowsComponents(r)
    ensures r.predictedFSI == fsi
    ensures r.recoveryStrategy.text == response && r.recoveryStrategy.tags == GetRecoveryTags(fsi, input.fireRisk)
  {
    var totalLoss := Round(loss);
    var propertyDamage := Round(totalLoss as real * 0.6);
    var businessDisruption := Round(totalLoss as real * 0.2);
    var tourismLoss := Round(totalLoss as real * 0.15);
    var healthCosts := Round(totalLoss as real * 0.05);
    ForecastResult(
      totalLoss, propertyDamage, businessDisruption, tourismLoss, healthCosts,
      fsi,
      RecoveryStrategy(response, GetRecoveryTags(fsi, input.fireRisk)),
      ChartData(propertyDamage, businessDisruption, tourismLoss, healthCosts))
  }

  /** Three fifths or one fifth of an integer is never exactly half-way between two integers. */
  lemma FifthsAreNeverHalves(total: int, share: int)
    ensures share as real != total as real * 0.6 + 0.5
    ensures share as real != total as real * 0.2 + 0.5
  {
  }

  /**
   * Because the fractions add up to one, the four rounded shares add up to
   * the total give or take one (never exactly half-way for the 60% and 20%
   * shares, so the upper slack of two cannot be reached).
   */
  lemma SharesWithinOneOfTotal(input: ForecastInput, loss: real, fsi: real, response: string)
    ensures var r := CreateResults(input, loss, fsi, response);
      r.totalLoss - 1 <= ComponentSum(r) <= r.totalLoss + 1
  {
    var r := CreateResults(input, loss, fsi, response);
    FifthsAreNeverHalves(r.totalLoss, r.propertyDamage);
    FifthsAreNeverHalves(r.totalLoss, r.businessDisruption);
  }

  /** When the rounded total is a multiple of 20, every share is exact and they add up to the total. */
  lemma SharesExactForMultiplesOfTwenty(input: ForecastInput, loss: real, fsi: real, response: string)
    requires Round(loss) % 20 == 0
    ensures var r := CreateResults(input, loss, fsi, response);
      && r.propertyDamage == r.totalLoss / 20 * 12 && r.businessDisruption == r.totalLoss / 20 * 4
      && r.tourismLoss == r.totalLoss / 20 * 3 && r.healthCosts == r.totalLoss / 20
      && ComponentSum(r) == r.totalLoss
  {
    var r := CreateResults(input, loss, fsi, response);
    var k := r.totalLoss / 20;
    assert r.totalLoss as real == 20.0 * k as real;
  }

  /** Both bounds of the split are reached: a total of 10 shows 11 in shares, a total of 2 shows 1. */
  lemma SharesCanMissTotal(input: ForecastInput, fsi: real, response: string)
    ensures ComponentSum(CreateResults(input, 10.0, fsi, response)) == 11
    ensures ComponentSum(CreateResults(input, 2.0, fsi, response)) == 1
  {
  }

  /** A loss of 1,000,000 and an FSI of 9: exact 60/20/15/5 shares and the emergency tags. */
  lemma MillionLossScenario(input: ForecastInput)
    ensures var r := CreateResults(input, 1000000.0, 9.0, "Evacuate");
      && r.totalLoss == 1000000 && r.propertyDamage == 600000 && r.businessDisruption == 200000
      && r.tourismLoss == 150000 && r.healthCosts == 50000 && r.predictedFSI == 9.0
      && r.recoveryStrategy == RecoveryStrategy("Evacuate", ["Emergency Funds", "Evacuation", "Federal Support"])
  {
  }
}
