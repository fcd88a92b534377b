# FireGuard forecast pipeline, modelled in Dafny

FireGuard is a browser dashboard. The user picks a region, a target year, a
fire-risk level and a population density, and the page shows an economic-loss
forecast, split into property, business, tourism and health. It also shows a
fire severity index (FSI) and a recovery strategy.

This project models the forecast pipeline of `my-app/src/App.js`:

- **Feature mapper** (`FeatureMapper`, feature_mapper.dfy). It turns the form
  input into the numeric feature record posted to the prediction service.
- **Recovery tag rule** (`RecoveryTags`, recovery_tags.dfy). It is the
  first-match-wins choice of three tags from the FSI and the risk level.
- **Local estimator** (`LocalEstimator`, local_estimator.dfy). It computes the
  deterministic forecast from per-region base costs, risk and population
  multipliers and a linear year factor.
- **Remote shaping** (`RemoteShaping`, remote_shaping.dfy). It rounds the
  predicted loss and splits it 60/20/15/5.
- **Resolver** (`Resolver`, resolver.dfy). It decides between the shaped
  remote result and the local estimate.
- **Submission flow** (`Submission`, submission.dfy). It is a class whose
  fields (loading flag, error and toast messages, displayed input and result)
  are updated in place by the submit handler. The methods are specified by
  transition functions on a page-view value. A session lemma covers any
  sequence of submissions.

Shared values are in `ForecastTypes` (forecast_types.dfy) and `Wrappers`
(wrappers.dfy).

Modelling choices:

- **Categorical fields.** Region, fire-risk level and population density are
  enumerations, each with a case for any other string (`OtherRegion`,
  `Unrecognized`). The source looks them up in object literals and falls back
  with `||` when the key is missing. A density of "Extreme" is in no density
  table, so it takes the default path as well.
- **Arithmetic.** All arithmetic is on exact rationals. The multipliers are
  0.8, 1.5, 2.5 and 4.0 for risk and 0.8, 1.0 and 1.3 for density. The year
  factor is 1 + (year - 2024) × 0.05. `Math.round(x)` is ⌊x + 1/2⌋.
- **Remote replies.** The two replies are input values, not network calls. A
  reply is either a failed call or a body whose numeric field may be absent.
  JavaScript truthiness of a field means "present and not zero".
- **Validation.** The two remote fields are checked only for JavaScript
  truthiness, not for being numeric. The model follows that check.
- **Exceptions during shaping.** These fall back to the estimator inside
  `createResults`. For numeric input that branch cannot be reached, so shaping
  is total in the model.

## Model

| member | source | states |
|---|---|---|
| `ForecastTypes.Round` | my-app/src/App.js:93-97 | Math.round: the result lies in (x - 1/2, x + 1/2], which picks the nearest integer, with halves going up |
| `FeatureMapper.GetRiskLevelNumeric` | my-app/src/App.js:194-197 | Low/Medium/High/Extreme map to their 1-based position 1..4 in the form's list. Any other value maps to 1. The code always lies in [1,4] |
| `FeatureMapper.GetPopulationDensityNumeric` | my-app/src/App.js:199-202 | Low/Medium/High map to 1..3 in form order. Any other value (including Extreme) maps to 1. The code always lies in [1,3] |
| `FeatureMapper.PrepareApiFeatures` | my-app/src/App.js:180-192 | Region and year pass through unchanged. The two codes come from the mappers and stay in range. The constants are VegetationDensity 2, AverageTemperature 25, PreviousFireHistory 1, WindSpeed 10 and Humidity 40 |
| `FeatureMapper.FeaturesDetermineFormInput` | my-app/src/App.js:180-202 | For inputs made of form options, equal feature records imply equal inputs, so the encoding loses nothing |
| `FeatureMapper.UnknownLevelsLookLikeLow` | my-app/src/App.js:194-202 | Unrecognised risk and density values give the same features as "Low" |
| `RecoveryTags.GetRecoveryTags` | my-app/src/App.js:204-209 | Always exactly three tags. It gives the emergency tags iff fsi ≥ 8 or the risk is Extreme. It gives the monitoring tags iff fsi < 4 and the risk is not Medium, High or Extreme |
| `RecoveryTags.TagsFollowMoreSevereSignal` | my-app/src/App.js:204-209 | The first-match-wins chain equals picking the rung max(FSI rung, risk code - 1) on the ladder monitoring < preparedness < federal < emergency |
| `RecoveryTags.TagsMonotoneInFsi` | my-app/src/App.js:204-209 | For a fixed risk level, a higher FSI never gives a milder tag list |
| `LocalEstimator.RegionBaseCosts` | my-app/src/App.js:125-146 | Every base cost is positive. A region without an entry uses California's table |
| `LocalEstimator.RiskMultiplier` | my-app/src/App.js:137-147 | The multiplier lies in [0.8, 4.0]. An unknown level uses 1.5 |
| `LocalEstimator.PopulationMultiplier` | my-app/src/App.js:138-148 | The multiplier lies in [0.8, 1.3]. An unknown density uses 1.0 |
| `LocalEstimator.YearFactor` | my-app/src/App.js:149 | The factor is 1 plus 0.05 per year after 2024, and at least 1 from 2024 on |
| `LocalEstimator.FsiFor` | my-app/src/App.js:157-158 | The FSI is one of 3, 5, 7 or 9. An unknown level gives 5 |
| `LocalEstimator.StrategyFor` | my-app/src/App.js:139-144 | A known level gets two tags. An unknown level gets the default text and the tags Monitoring, Prevention and Education (lines 168-169) |
| `LocalEstimator.Estimate` | my-app/src/App.js:151-176 | The total is exactly the sum of the four rounded components. The chart lists Property, Business, Tourism and Health in order, with those values |
| `LocalEstimator.CalculateForecastResults` | my-app/src/App.js:124-178 | Total equals the exact component sum. The chart matches the components. The FSI and strategy are the risk-keyed lookups |
| `LocalEstimator.TourismIgnoresDensity` | my-app/src/App.js:151-154 | Changing only the population density leaves tourismLoss unchanged |
| `LocalEstimator.UnknownRegionIsCalifornia` | my-app/src/App.js:146 | An unknown region gives exactly California's estimate |
| `LocalEstimator.UnknownDensityIsMedium` | my-app/src/App.js:148 | An unknown density gives exactly the "Medium" estimate |
| `LocalEstimator.UnknownRiskCostsAsMedium` | my-app/src/App.js:147-169 | An unknown risk gives the "Medium" losses and FSI 5. It differs only in the strategy, which is the default text and its three tags |
| `LocalEstimator.ComponentsPositiveFromBaseYear` | my-app/src/App.js:149-155 | From 2024 on, every component and the total are positive |
| `LocalEstimator.LossGrowsWithYear` | my-app/src/App.js:149-155 | A later year never lowers any component or the total |
| `LocalEstimator.OregonMediumScenario` | my-app/src/App.js:124-178 | Oregon/2024/Medium/Medium gives 225000, 75000, 45000 and 30000, total 375000, FSI 5, tags Preparedness and Planning |
| `LocalEstimator.CaliforniaExtremeScenario` | my-app/src/App.js:124-178 | California/2030/Extreme/High gives 2028000, 676000, 390000 and 169000, total 3263000, FSI 9 |
| `RemoteShaping.CreateResults` | my-app/src/App.js:91-116 | totalLoss is round(loss). Each share is the nearest integer to 60/20/15/5 % of the total. FSI and text are copied, the tags come from the tag rule, and the chart matches the shares |
| `RemoteShaping.SharesWithinOneOfTotal` | my-app/src/App.js:93-97 | The four shares add up to the total within ±1 |
| `RemoteShaping.SharesExactForMultiplesOfTwenty` | my-app/src/App.js:93-97 | When the total is a multiple of 20, the shares are exactly 12/20, 4/20, 3/20 and 1/20 of it and add up to it |
| `RemoteShaping.SharesCanMissTotal` | my-app/src/App.js:93-97 | Both bounds are reached: total 10 gives share sum 11, and total 2 gives share sum 1 |
| `RemoteShaping.MillionLossScenario` | my-app/src/App.js:91-116 | Loss 1000000 with FSI 9 gives 600000/200000/150000/50000 and the emergency tags |
| `Resolver.FetchBackendResults` | my-app/src/App.js:73-89 | The shaped remote result when both calls returned and both fields are truthy. Otherwise the local estimate. In both cases the components add up to the total within ±1 |
| `Resolver.TagCountRevealsPath` | my-app/src/App.js:73-89 | For a form risk level: three tags iff the remote result was used, two tags iff the estimate was |
| `Resolver.ZeroPredictionFallsBack` | my-app/src/App.js:78-83 | A loss or FSI of 0 is falsy, so the estimate is used |
| `Resolver.FailedCallFallsBack` | my-app/src/App.js:85-88 | A failed call on either endpoint gives exactly the local estimate |
| `Submission.Started` | my-app/src/App.js:52-53 | Loading starts and the previous error is cleared. Toast, input and result are kept |
| `Submission.Completed` | my-app/src/App.js:55-70 | On a collection failure: the error message is set and the displayed input and result are kept. Otherwise: the input and its resolved result are displayed with the success toast. Loading always ends |
| `Submission.Submitted` | my-app/src/App.js:50-71 | After a whole submission, loading is off. The error is empty iff the input was collected. A collected input replaces the displayed forecast with its resolution, and a failure keeps the previous one |
| `Submission.SessionShowsLastCollected` | my-app/src/App.js:50-71 | After any sequence of submissions, the page shows the input and resolved result of the last one whose input was collected, or its starting forecast if none was. The error is shown iff the latest submission failed |
| `Submission.ForecastPage.constructor` | my-app/src/App.js:9-13 | Initial state: not loading, no messages, no input or result shown |
| `Submission.ForecastPage.BeginSubmit` | my-app/src/App.js:52-53 | The fields are updated in place to `Started` of their old values. A shown result is still the resolution of the shown input |
| `Submission.ForecastPage.CompleteSubmit` | my-app/src/App.js:55-70 | The fields are updated in place to `Completed` of their old values. A shown result is still the resolution of the shown input |
| `Submission.ForecastPage.HandleForecastSubmit` | my-app/src/App.js:50-71 | The whole handler: the fields become `Submitted` of their old values |

## Left out

- Rendering, hash navigation, scroll spying and the chart drawing are display code (App.js:25-48, 220 onwards; ResultsBarChart.js; useScrollSpy.js; navbar.js; dashboard.js).
- The toast timer (App.js:37-42) and the delayed jump to the results section (App.js:64) are not modelled. They are timers.
- localStorage persistence is not modelled. This covers the save on submit (App.js:57) and the reload-and-resolve on page load (App.js:16-23). JSON and browser storage are I/O.
- `collectForecastInputs` (App.js:211-217) reads DOM elements. The input is an already collected record. An `Attempt` whose input is `None` stands for an exception while collecting or persisting it.
- The network calls of `predictEconomicLoss` and `predictFireSeverity` (api.js) are replaced by reply values. The severity request is not sent when the loss request fails, but this does not change the result.
- `withFallback` and the ARIMA and LSTM forecast calls in api.js are unused by the page. predict.py is an HTTP client.
- The Python back end (backend.py, model.py, preProcess.py) is not part of this model. It trains and runs machine-learning models in floating point. Its reply text only passes through the front end unchanged.
- The `createResults` catch branch (App.js:117-120) is not modelled. Math.round does not throw on numbers.
- Reply fields that are present but not numbers (a JSON string, say) are not modelled. Neither is a missing `suggested_response`, which would show as undefined. The fields are numbers or absent.
- Object-prototype keys such as "constructor" are not modelled. In JavaScript they make a table lookup truthy but invalid. Here any string outside the tables is the unrecognised case.
- A year that `parseInt` cannot read (NaN) is not modelled. The year is an integer.
- CalculateForecastResults: the arithmetic is exact, not IEEE double. At exact .5 ties the browser can round differently. For example, Nevada/Medium/High/2025 health is 30712.5 in exact arithmetic.
- CreateResults: the arithmetic is exact, not IEEE double, for the same reason (for example, `totalLoss * 0.15` in doubles).
- HandleForecastSubmit: the submission is collapsed to two atomic steps. In the page, `setForecastData` runs before the `await` and the new result after it. For the length of the request, a render can show the new input next to the previous result.
