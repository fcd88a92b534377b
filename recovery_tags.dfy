/**
 * The recovery tag rule used on the remote path: an ordered,
 * first-match-wins decision on the predicted fire severity index (FSI) and
 * the fire-risk level chosen on the form.
 */
module RecoveryTags {
  import opened ForecastTypes
  import opened FeatureMapper

  const EmergencyTags: seq<string> := ["Emergency Funds", "Evacuation", "Federal Support"]
  const FederalTags: seq<string> := ["Federal Support", "Business Grants", "Community Resources"]
  const PreparednessTags: seq<string> := ["Preparedness", "Planning", "Community Support"]
  const MonitoringTags: seq<string> := ["Monitoring", "Prevention", "Education"]

  function GetRecoveryTags(fsi: real, riskLevel: Level): (tags: seq<string>)
    ensures |tags| == 3
    ensures tags == EmergencyTags <==> fsi >= 8.0 || riskLevel == Extreme
    ensures tags == MonitoringTags <==> fsi < 4.0 && riskLevel !in [Medium, High, Extreme]
  {
    if fsi >= 8.0 || riskLevel == Extreme then EmergencyTags
    else if fsi >= 6.0 || riskLevel == High then FederalTags
    else if fsi >= 4.0 || riskLevel == Medium then PreparednessTags
    else MonitoringTags
  }

  /** The four tag lists, from the mildest response to the most severe. */
  const TagLadder: seq<seq<string>> := [MonitoringTags, PreparednessTags, FederalTags, EmergencyTags]

  /** The rung of the ladder that the FSI alone calls for. */
  function FsiRung(fsi: real): (rung: nat)
    ensures rung < |TagLadder|
  {
    if fsi >= 8.0 then 3 else if fsi >= 6.0 then 2 else if fsi >= 4.0 then 1 else 0
  }

  function Max(a: nat, b: nat): nat {
    if a < b then b else a
  }

  /**
   * The first-match-wins rule picks the rung of the more severe of the two
   * signals, where the risk level's rung is its feature code less one.
   */
  lemma TagsFollowMoreSevereSignal(fsi: real, riskLevel: Level)
    ensures GetRecoveryTags(fsi, riskLevel) == TagLadder[Max(FsiRung(fsi), GetRiskLevelNumeric(riskLevel) - 1)]
  {
    var code := GetRiskLevelNumeric(riskLevel);
    if riskLevel in RiskLevels {
      assert RiskLevels[code - 1] == riskLevel;
    }
  }

  /** A higher FSI never moves the recommendation down the ladder. */
  lemma TagsMonotoneInFsi(fsi: real, higher: real, riskLevel: Level, i: nat, j: nat)
    requires fsi <= higher
    requires i < |TagLadder| && TagLadder[i] == GetRecoveryTags(fsi, riskLevel)
    requires j < |TagLadder| && TagLadder[j] == GetRecoveryTags(higher, riskLevel)
    ensures i <= j
  {
    TagsFollowMoreSevereSignal(fsi, riskLevel);
    TagsFollowMoreSevereSignal(higher, riskLevel);
    LadderRungsDistinct(i, Max(FsiRung(fsi), GetRiskLevelNumeric(riskLevel) - 1));
    LadderRungsDistinct(j, Max(FsiRung(higher), GetRiskLevelNumeric(riskLevel) - 1));
  }

  lemma LadderRungsDistinct(i: nat, j: nat)
    requires i < |TagLadder| && j < |TagLadder|
    requires TagLadder[i] == TagLadder[j]
    ensures i == j
  {
  }
}
