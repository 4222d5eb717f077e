/** The root controller: which form is active (kept in the `service` URL
    parameter), the submission life cycle, and when the results page
    replaces the forms. The browser's URL, history and event listeners are
    not modelled: the parameter value read from the URL is an argument, and
    the value written back is returned. */
module Root {
  import opened Types
  import opened Api

  /** `getInitialService`: "pest" gives pest, "clean" or "cleaning" gives
      cleaning, and anything else, including a missing parameter, gives
      pest. */
  function ParseServiceParam(param: Option<string>): (service: ServiceType)
    ensures service == Cleaning <==> param == Some("clean") || param == Some("cleaning")
    ensures service == Pest <==> param != Some("clean") && param != Some("cleaning")
  {
    if param == Some("pest") then Pest
    else if param == Some("clean") || param == Some("cleaning") then Cleaning
    else Pest
  }

  /** The value `handleServiceChange` writes to the URL: the short "clean"
      for cleaning. Reading it back gives the service that was chosen. */
  function UrlServiceValue(service: ServiceType): (value: string)
    ensures ParseServiceParam(Some(value)) == service
    ensures value != "cleaning"
  {
    match service
    case Cleaning => "clean"
    case Pest => "pest"
  }

  /** Writing the service read from any URL and reading it back is stable,
      so a reload after a switch shows the same form. */
  lemma UrlValueIsCanonical(param: Option<string>)
    ensures ParseServiceParam(Some(UrlServiceValue(ParseServiceParam(param)))) == ParseServiceParam(param)
  {
  }

  /** The long "cleaning" spelling is accepted but never written: it reads
      as cleaning and is rewritten as "clean" on the next switch. */
  lemma LongSpellingIsNormalised()
    ensures ParseServiceParam(Some("cleaning")) == Cleaning
    ensures UrlServiceValue(ParseServiceParam(Some("cleaning"))) == "clean"
  {
  }

  /** What the root renders. */
  datatype Screen = ResultsScreen(data: BookingResultData, service: ServiceType) | FormScreen(service: ServiceType)

  /** `{error && ...}`: the banner shows the error when it is a non-empty
      string. */
  function ErrorBanner(error: Option<string>): (banner: Option<string>)
    ensures banner.Some? <==> error.Some? && error.value != ""
    ensures banner.Some? ==> banner == error
  {
    if error.Some? && error.value != "" then error else None
  }

  /** A failed submission shows its banner whenever the failure is not a
      thrown `Error` other than a network failure, nor a rejected body: the
      message of those two may be empty, and an empty message leaves no
      banner. A network failure always shows its fixed message. */
  lemma BannerAfterSubmission(outcome: FetchOutcome)
    ensures var result := SubmitResult(outcome);
      !result.success && !(outcome.FetchThrew? && outcome.thrown.ErrorValue? && !IsNetworkFailure(outcome.thrown)) &&
      !(outcome.Responded? && outcome.body.Unparseable?) ==>
        ErrorBanner(Some(result.message)).Some?
  {
    var result := SubmitResult(outcome);
    if outcome.Responded? && !IsOk(outcome.status) {
      assert result.message == ServerErrorMessage(outcome.status);
    }
  }

  class App {
    var activeService: ServiceType
    var isSubmitted: bool
    var isLoading: bool
    var error: Option<string>
    var response: Option<BookingResponse>

    /** The results page is only reached through a successful submission,
        which always carries a body; while a request is in flight no error
        is shown. */
    ghost predicate Valid()
      reads this
    {
      && (isSubmitted ==> response.Some? && response.value.success && response.value.data.Some?)
      && (isLoading ==> error.None?)
    }

    /** The results page replaces the forms iff a submission succeeded and
        its response carries data. */
    function CurrentScreen(): (screen: Screen)
      reads this
      ensures screen.ResultsScreen? <==> isSubmitted && response.Some? && response.value.data.Some?
      ensures screen.ResultsScreen? ==> screen.data == response.value.data.value
      ensures screen.service == activeService
    {
      if isSubmitted && response.Some? && response.value.data.Some? then
        ResultsScreen(response.value.data.value, activeService)
      else FormScreen(activeService)
    }

    /** The first render: the form named by the URL, nothing submitted. */
    constructor (serviceParam: Option<string>)
      ensures Valid()
      ensures activeService == ParseServiceParam(serviceParam)
      ensures !isSubmitted && !isLoading && error.None? && response.None?
    {
      activeService := ParseServiceParam(serviceParam);
      isSubmitted := false;
      isLoading := false;
      error := None;
      response := None;
    }

    /** A brand tab: switches the form and returns the URL value written. */
    method HandleServiceChange(service: ServiceType) returns (urlValue: string)
      requires Valid()
      modifies this
      ensures Valid()
      ensures activeService == service
      ensures urlValue == UrlServiceValue(service) && ParseServiceParam(Some(urlValue)) == service
      ensures isSubmitted == old(isSubmitted) && isLoading == old(isLoading)
      ensures error == old(error) && response == old(response)
    {
      activeService := service;
      urlValue := UrlServiceValue(service);
    }

    /** Back / forward navigation: the form follows the URL's parameter. */
    method HandlePopState(serviceParam: Option<string>)
      requires Valid()
      modifies this
      ensures Valid()
      ensures activeService == ParseServiceParam(serviceParam)
      ensures isSubmitted == old(isSubmitted) && isLoading == old(isLoading)
      ensures error == old(error) && response == old(response)
    {
      activeService := ParseServiceParam(serviceParam);
    }

    /** The synchronous part of a submit handler, before the request. */
    method BeginSubmit()
      requires Valid()
      modifies this
      ensures Valid()
      ensures isLoading && error.None?
      ensures activeService == old(activeService) && isSubmitted == old(isSubmitted) && response == old(response)
    {
      isLoading := true;
      error := None;
    }

    /** The part after the request: the result is stored either way; a
        success leads to the results page, a failure to the error banner. */
    method CompleteSubmit(result: BookingResponse)
      requires Valid() && isLoading && !isSubmitted
      requires result.success ==> result.data.Some?
      modifies this
      ensures Valid()
      ensures !isLoading && response == Some(result)
      ensures isSubmitted == result.success
      ensures error == (if result.success then None else Some(result.message))
      ensures activeService == old(activeService)
    {
      isLoading := false;
      response := Some(result);
      if result.success {
        isSubmitted := true;
      } else {
        error := Some(result.message);
      }
    }

    /** `handlePestSubmit`: posts the pest-control draft tagged "pest"
        (whatever form is active) and ends on the results page iff the
        request succeeded. Returns the posted payload. */
    method HandlePestSubmit(draft: PestControlBooking, timestamp: string, outcome: FetchOutcome)
      returns (payload: Payload)
      requires Valid() && !isSubmitted
      modifies this
      ensures Valid()
      ensures payload == BuildPayload(Pest, timestamp, PestFields(draft))
      ensures !isLoading && response == Some(SubmitResult(outcome))
      ensures CurrentScreen().ResultsScreen? <==> SubmitResult(outcome).success
      ensures error == (if SubmitResult(outcome).success then None else Some(SubmitResult(outcome).message))
      ensures activeService == old(activeService)
    {
      payload := BuildPayload(Pest, timestamp, PestFields(draft));
      BeginSubmit();
      var result := SubmitResult(outcome);
      CompleteSubmit(result);
    }

    /** `handleCleaningSubmit`: the same life cycle with the cleaning draft
        tagged "cleaning". */
    method HandleCleaningSubmit(draft: CleaningBooking, timestamp: string, outcome: FetchOutcome)
      returns (payload: Payload)
      requires Valid() && !isSubmitted
      modifies this
      ensures Valid()
      ensures payload == BuildPayload(Cleaning, timestamp, CleaningFields(draft))
      ensures !isLoading && response == Some(SubmitResult(outcome))
      ensures CurrentScreen().ResultsScreen? <==> SubmitResult(outcome).success
      ensures error == (if SubmitResult(outcome).success then None else Some(SubmitResult(outcome).message))
      ensures activeService == old(activeService)
    {
      payload := BuildPayload(Cleaning, timestamp, CleaningFields(draft));
      BeginSubmit();
      var result := SubmitResult(outcome);
      CompleteSubmit(result);
    }

    /** `handleReset` (the results page's back button): back to the active
        form with nothing submitted. */
    method HandleReset()
      requires Valid()
      modifies this
      ensures Valid()
      ensures !isSubmitted && error.None? && response.None?
      ensures activeService == old(activeService) && isLoading == old(isLoading)
      ensures CurrentScreen() == FormScreen(activeService)
    {
      isSubmitted := false;
      error := None;
      response := None;
    }
  }
}
