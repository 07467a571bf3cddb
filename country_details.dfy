/**
 * The country detail page (src/app/pages/country-details/country-details.component.ts):
 * validation of the route id and the UI flags set for each outcome of the
 * details request.
 */
module CountryDetailsPage {
  import opened Models
  import opened Decimal

  /**
   * The route id after numeric coercion: an integer, or some other number
   * (fractional, NaN, ...) together with the text it renders as.
   */
  datatype RouteId = IntegerId(n: int) | NonIntegerId(rendered: string)

  /** What the details request delivers. */
  datatype Outcome = NotFound | Found(details: CountryDetails) | Failed

  /** The page's UI state: flags, message and loaded details. */
  datatype ViewState = ViewState(loading: bool, loadError: bool, errorMessage: string, details: Option<CountryDetails>)

  /** How `${countryId}` renders the id (for integers, exact below 2^53). */
  function RenderId(id: RouteId): string
  {
    match id
    case IntegerId(n) => IntToString(n)
    case NonIntegerId(text) => text
  }

  /** Only positive integers are requested. */
  predicate IsValidId(id: RouteId)
  {
    id.IntegerId? && id.n > 0
  }

  const GenericErrorMessage: string := "An error has occurred. Please try again."

  function InvalidIdMessage(id: RouteId): string
  {
    "The specified country ID (" + RenderId(id) + ") is not valid."
  }

  function NotFoundMessage(id: RouteId): string
  {
    "No country was found with the ID " + RenderId(id) + "."
  }

  predicate OccursAt(s: string, part: string, i: int)
  {
    0 <= i <= |s| - |part| && s[i..i + |part|] == part
  }

  ghost predicate Contains(s: string, part: string)
  {
    exists i :: OccursAt(s, part, i)
  }

  /** The state of a freshly created page. */
  const InitialState: ViewState := ViewState(true, false, "", None)

  /** The effect of the id check: an invalid id ends loading with an error. */
  function AfterInit(s: ViewState, id: RouteId): ViewState
  {
    if IsValidId(id) then s
    else s.(loading := false, loadError := true, errorMessage := InvalidIdMessage(id))
  }

  /** The effect of the request's `next` or `error` callback. */
  function AfterOutcome(s: ViewState, id: RouteId, o: Outcome): ViewState
  {
    match o
    case NotFound => s.(loading := false, loadError := true, errorMessage := NotFoundMessage(id))
    case Found(d) => s.(details := Some(d), loading := false, loadError := false)
    case Failed => s.(loading := false, loadError := true, errorMessage := GenericErrorMessage)
  }

  /** A finished page: no longer loading, and an error exactly when there are no details. */
  predicate Settled(s: ViewState)
  {
    !s.loading && (s.loadError <==> s.details.None?)
  }

  /** Both error messages that name the id really contain its rendering. */
  lemma MessagesNameTheId(id: RouteId)
    ensures Contains(InvalidIdMessage(id), RenderId(id))
    ensures Contains(NotFoundMessage(id), RenderId(id))
  {
    var r := RenderId(id);
    assert OccursAt(InvalidIdMessage(id), r, 26);
    assert OccursAt(NotFoundMessage(id), r, 33);
  }

  /** The three error messages are pairwise distinct, whatever the id. */
  lemma MessagesDistinct(id: RouteId)
    ensures InvalidIdMessage(id) != NotFoundMessage(id)
    ensures InvalidIdMessage(id) != GenericErrorMessage
    ensures NotFoundMessage(id) != GenericErrorMessage
  {
    assert InvalidIdMessage(id)[0] == 'T';
    assert NotFoundMessage(id)[0] == 'N';
    assert GenericErrorMessage[0] == 'A';
  }

  /** An invalid id finishes the page at once, with the id named in the message and no details. */
  lemma InvalidIdSettles(id: RouteId)
    requires !IsValidId(id)
    ensures var s := AfterInit(InitialState, id);
      Settled(s) && s.loadError && s.details == None && Contains(s.errorMessage, RenderId(id))
  {
    MessagesNameTheId(id);
  }

  /**
   * A valid id leaves the page loading; whatever the request then delivers,
   * the page finishes with the flags, message and details of that outcome.
   */
  lemma OutcomeSettles(id: RouteId, o: Outcome)
    requires IsValidId(id)
    ensures AfterInit(InitialState, id) == InitialState
    ensures var s := AfterOutcome(AfterInit(InitialState, id), id, o);
      Settled(s) &&
      (o.NotFound? ==> s.loadError && s.details == None && Contains(s.errorMessage, RenderId(id))) &&
      (o.Found? ==> !s.loadError && s.details == Some(o.details)) &&
      (o.Failed? ==> s.loadError && s.details == None && s.errorMessage == GenericErrorMessage)
  {
    MessagesNameTheId(id);
  }

  /** The component object, with the fields its template binds to. */
  class CountryDetailsComponent {
    var loading: bool
    var loadError: bool
    var errorMessage: string
    /** `None` until the route has been read. */
    var countryId: Option<RouteId>
    var details: Option<CountryDetails>

    function State(): ViewState
      reads this
    {
      ViewState(loading, loadError, errorMessage, details)
    }

    /** Loading, no error, empty message, no details. */
    constructor ()
      ensures State() == InitialState && countryId == None
    {
      loading := true;
      loadError := false;
      errorMessage := "";
      countryId := None;
      details := None;
    }

    /**
     * Reads and checks the route id. Returns the id it requests details for,
     * or `None` when the id is invalid and no request is made.
     */
    method NgOnInit(id: RouteId) returns (request: Option<int>)
      modifies this
      ensures countryId == Some(id)
      ensures State() == AfterInit(old(State()), id)
      ensures request == if IsValidId(id) then Some(id.n) else None
    {
      countryId := Some(id);
      if !id.IntegerId? || id.n <= 0 {
        loading := false;
        loadError := true;
        errorMessage := "The specified country ID (" + RenderId(id) + ") is not valid.";
        return None;
      }
      request := Some(id.n);
    }

    /** The subscription's `next` and `error` callbacks for the details request. */
    method OnDetailsOutcome(o: Outcome)
      requires countryId.Some? && IsValidId(countryId.value)
      modifies this
      ensures countryId == old(countryId)
      ensures State() == AfterOutcome(old(State()), countryId.value, o)
    {
      match o
      case NotFound =>
        loading := false;
        loadError := true;
        errorMessage := "No country was found with the ID " + RenderId(countryId.value) + ".";
      case Found(d) =>
        details := Some(d);
        loading := false;
        loadError := false;
      case Failed =>
        loading := false;
        loadError := true;
        errorMessage := GenericErrorMessage;
    }
  }

  /**
   * One visit to the page: create it, run `ngOnInit`, and deliver the request's
   * outcome if a request was made. Every such path ends settled.
   */
  method VisitPage(id: RouteId, o: Outcome) returns (page: CountryDetailsComponent)
    ensures page.countryId == Some(id)
    ensures page.State() == if IsValidId(id) then AfterOutcome(InitialState, id, o) else AfterInit(InitialState, id)
    ensures Settled(page.State())
  {
    page := new CountryDetailsComponent();
    var request := page.NgOnInit(id);
    if request.Some? {
      page.OnDetailsOutcome(o);
      OutcomeSettles(id, o);
    } else {
      InvalidIdSettles(id);
    }
  }
}
