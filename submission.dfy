/**
 * The forecast page's submission flow: the loading flag, the error and
 * toast messages, and the displayed input and result, updated in place as
 * a submission starts and completes.
 */
module Submission {
  import opened Wrappers
  import opened ForecastTypes
  import opened Resolver

  const FailureMessage := "Failed to generate forecast. Please try again or check backend connection."
  const SuccessToast := "Forecast generated successfully!"

  /**
   * One press of the submit button. `collected` is None when reading or
   * persisting the form input threw; the replies are those the prediction
   * service gave for that input.
   */
  datatype Attempt = Attempt(collected: Option<ForecastInput>, loss: LossReply, severity: SeverityReply)

  /** The page state the submit handler reads and writes. */
  datatype PageView = PageView(
    isLoading: bool,
    errorMessage: string,
    toastMessage: string,
    forecastData: Option<ForecastInput>,
    forecastResults: Option<ForecastResult>)

  /** The handler's first step: loading starts and the previous error is cleared. */
  function Started(v: PageView): (w: PageView)
    ensures w.isLoading && w.errorMessage == ""
    ensures w.toastMessage == v.toastMessage && w.forecastData == v.forecastData && w.forecastResults == v.forecastResults
  {
    v.(isLoading := true, errorMessage := "")
  }

  /** The rest of the handler, once the replies are in. */
  function Completed(v: PageView, a: Attempt): (w: PageView)
    ensures !w.isLoading
    ensures a.collected.None? ==>
      && w.errorMessage == FailureMessage && w.toastMessage == v.toastMessage
      && w.forecastData == v.forecastData && w.forecastResults == v.forecastResults
    ensures a.collected.Some? ==>
      && w.errorMessage == v.errorMessage && w.toastMessage == SuccessToast
      && w.forecastData == a.collected
      && w.forecastResults == Some(FetchBackendResults(a.collected.value, a.loss, a.severity))
  {
    match a.collected
    case Some(input) =>
      v.(forecastData := Some(input),
         forecastResults := Some(FetchBackendResults(input, a.loss, a.severity)),
         toastMessage := SuccessToast,
         isLoading := false)
    case None =>
      v.(errorMessage := FailureMessage, isLoading := false)
  }

  /**
   * A whole submission. A collected input replaces the displayed forecast
   * and leaves no error; a failure shows the error and keeps the forecast.
   */
  function Submitted(v: PageView, a: Attempt): (w: PageView)
    ensures !w.isLoading
    ensures w.errorMessage == (if a.collected.Some? then "" else FailureMessage)
    ensures a.collected.None? ==> w.forecastData == v.forecastData && w.forecastResults == v.forecastResults
    ensures a.collected.Some? ==>
      && w.forecastData == a.collected
      && w.forecastResults == Some(FetchBackendResults(a.collected.value, a.loss, a.severity))
  {
    Completed(Started(v), a)
  }

  /** The page after a sequence of submissions, in order. */
  function Session(v: PageView, attempts: seq<Attempt>): PageView
    decreases |attempts|
  {
    if attempts == [] then v else Session(Submitted(v, attempts[0]), attempts[1..])
  }

  /** The last attempt whose input was collected, if any. */
  function LastCollected(attempts: seq<Attempt>): (last: Option<Attempt>)
    ensures last.Some? ==> last.value in attempts && last.value.collected.Some?
    decreases |attempts|
  {
    if attempts == [] then None
    else if attempts[|attempts| - 1].collected.Some? then Some(attempts[|attempts| - 1])
    else LastCollected(attempts[..|attempts| - 1])
  }

  /** Running one more submission after a session is the same as a session one longer. */
  lemma {:induction false} SessionExtends(v: PageView, attempts: seq<Attempt>, a: Attempt)
    ensures Session(v, attempts + [a]) == Submitted(Session(v, attempts), a)
    decreases |attempts|
  {
    if attempts == [] {
      assert [] + [a] == [a];
    } else {
      assert (attempts + [a])[1..] == attempts[1..] + [a];
      SessionExtends(Submitted(v, attempts[0]), attempts[1..], a);
    }
  }

  /**
   * After any sequence of submissions the page shows the forecast of the
   * last one whose input was collected (or the forecast it started with
   * if there was none), and it shows the error exactly when the latest
   * submission failed.
   */
  lemma {:induction false} SessionShowsLastCollected(v: PageView, attempts: seq<Attempt>)
    ensures var w := Session(v, attempts);
      match LastCollected(attempts)
      case None => w.forecastData == v.forecastData && w.forecastResults == v.forecastResults
      case Some(a) =>
        && w.forecastData == a.collected
        && w.forecastResults == Some(FetchBackendResults(a.collected.value, a.loss, a.severity))
    ensures attempts != [] ==>
      (Session(v, attempts).errorMessage == FailureMessage <==> attempts[|attempts| - 1].collected.None?)
    decreases |attempts|
  {
    if attempts != [] {
      var init, a := attempts[..|attempts| - 1], attempts[|attempts| - 1];
      assert attempts == init + [a];
      SessionExtends(v, init, a);
      SessionShowsLastCollected(v, init);
    }
  }

  class ForecastPage {
    var isLoading: bool
    var errorMessage: string
    var toastMessage: string
    var forecastData: Option<ForecastInput>
    var forecastResults: Option<ForecastResult>

    // The replies the displayed result was resolved from.
    ghost var lastLoss: LossReply
    ghost var lastSeverity: SeverityReply

    function View(): PageView
      reads this
    {
      PageView(isLoading, errorMessage, toastMessage, forecastData, forecastResults)
    }

    /**
     * A result is shown only together with the input it was computed for,
     * and it is the resolver's answer for that input.
     */
    ghost predicate Valid()
      reads this
    {
      forecastResults.Some? ==>
        && forecastData.Some?
        && forecastResults.value == FetchBackendResults(forecastData.value, lastLoss, lastSeverity)
    }

    constructor ()
      ensures Valid()
      ensures View() == PageView(false, "", "", None, None)
    {
      isLoading, errorMessage, toastMessage := false, "", "";
      forecastData, forecastResults := None, None;
      lastLoss, lastSeverity := LossFailed, SeverityFailed;
    }

    method BeginSubmit()
      requires Valid()
      modifies this
      ensures Valid()
      ensures View() == Started(old(View()))
    {
      isLoading := true;
      errorMessage := "";
    }

    method CompleteSubmit(a: Attempt)
      requires Valid()
      modifies this
      ensures Valid()
      ensures View() == Completed(old(View()), a)
    {
      if a.collected.Some? {
        var input := a.collected.value;
        forecastData := Some(input);
        forecastResults := Some(FetchBackendResults(input, a.loss, a.severity));
        lastLoss, lastSeverity := a.loss, a.severity;
        toastMessage := SuccessToast;
      } else {
        errorMessage := FailureMessage;
      }
      isLoading := false;
    }

    method HandleForecastSubmit(a: Attempt)
      requires Valid()
      modifies this
      ensures Valid()
      ensures View() == Submitted(old(View()), a)
    {
      BeginSubmit();
      CompleteSubmit(a);
    }
  }
}
