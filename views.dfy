/** The state every collection view keeps (`useState([])`, `useState(true)`,
    `useState(null)`, lines 4-6 of each view), the handlers of its promise chain that
    update it, and the branch its render takes (spinner, then error panel, then list). */
module Views {
  import opened Wrappers
  import opened JsValues
  import opened Normalize
  import opened FetchChain

  /** What a view renders. */
  datatype Screen =
    | Spinner                        // `if (loading)`
    | ErrorPanel(message: string)    // `if (error)`
    | EmptyState                     // `items.length === 0`
    | Rows(items: seq<Json>)         // one card or table row per item

  /** `if (error)`: the error is a non-empty string. */
  predicate ErrorShown(error: Option<string>) {
    error.Some? && error.value != ""
  }

  class View {
    const resource: Resource
    var items: seq<Json>
    var loading: bool
    var error: Option<string>

    /** A freshly mounted view: no items, loading, no error. */
    constructor (resource: Resource)
      ensures this.resource == resource
      ensures items == [] && loading && error == None
    {
      this.resource := resource;
      items := [];
      loading := true;
      error := None;
    }

    /** The render's branches, in the order the component tests them. */
    function Render(): (s: Screen)
      reads this
      ensures loading ==> s == Spinner
      ensures !loading && ErrorShown(error) ==> s == ErrorPanel(error.value)
      ensures !loading && !ErrorShown(error) && items == [] ==> s == EmptyState
      ensures !loading && !ErrorShown(error) && items != [] ==> s == Rows(items)
    {
      if loading then Spinner
      else if ErrorShown(error) then ErrorPanel(error.value)
      else if items == [] then EmptyState
      else Rows(items)
    }

    /** `.catch(error => { setError(error.message); setLoading(false); })`. */
    method OnFailure(message: string)
      modifies this
      ensures error == Some(message) && !loading && items == old(items)
    {
      error := Some(message);
      loading := false;
    }

    /** The second `.then`: normalise the decoded body, store it and clear `loading`;
        a throw inside it goes to the catch handler instead. */
    method OnOk(data: Json, parse: Parser)
      modifies this
      ensures !loading
      ensures NormalizeFor(resource, data, parse).Success? ==>
                items == NormalizeFor(resource, data, parse).value && error == old(error)
      ensures NormalizeFor(resource, data, parse).Failure? ==>
                items == old(items) && error == Some(NormalizeFor(resource, data, parse).error)
    {
      match NormalizeFor(resource, data, parse)
      case Failure(message) =>
        OnFailure(message);
      case Success(list) =>
        items := list;
        loading := false;
    }

    /** The whole chain: a rejected `fetch` and a non-ok status go to the catch handler,
        as does a body `response.json()` cannot decode; an ok body goes to `OnOk`. */
    method Settle(outcome: FetchOutcome, parse: Parser)
      modifies this
      ensures !loading
      ensures ChainResult(resource, outcome, parse).Success? ==>
                items == ChainResult(resource, outcome, parse).value && error == old(error)
      ensures ChainResult(resource, outcome, parse).Failure? ==>
                items == old(items) && error == Some(ChainResult(resource, outcome, parse).error)
    {
      match outcome
      case NetworkFailure(message) =>
        OnFailure(message);
      case Responded(status, body) =>
        if !IsOk(status) {
          OnFailure(HttpErrorMessage(status));
        } else {
          match body
          case Malformed(message) =>
            OnFailure(message);
          case Parsed(data) =>
            OnOk(data, parse);
        }
    }
  }

  /** The screen once the chain has settled with result `r`. */
  function SettledScreen(r: Result<seq<Json>, string>): Screen {
    match r
    case Success(xs) => if xs == [] then EmptyState else Rows(xs)
    case Failure(m) => if m != "" then ErrorPanel(m) else EmptyState
  }

  /** Mounting a view and letting its chain settle once: the spinner first, then the
      screen the chain's result selects, which is never the spinner again. */
  method Activate(resource: Resource, outcome: FetchOutcome, parse: Parser) returns (before: Screen, after: Screen)
    ensures before == Spinner
    ensures after == SettledScreen(ChainResult(resource, outcome, parse))
    ensures after != Spinner
  {
    var view := new View(resource);
    before := view.Render();
    view.Settle(outcome, parse);
    after := view.Render();
  }

  /** A non-ok response shows the error panel naming its status, never the list. */
  lemma NonOkShowsStatus(resource: Resource, status: nat, body: Body, parse: Parser)
    requires !IsOk(status)
    ensures SettledScreen(ChainResult(resource, Responded(status, body), parse)) == ErrorPanel(HttpErrorMessage(status))
  {
    HttpErrorMessageNamesStatus(status);
  }

  /** Non-ok responses with different statuses show different error panels. */
  lemma NonOkPanelsNameTheirStatus(resource: Resource, s: nat, t: nat, b: Body, c: Body, parse: Parser)
    requires !IsOk(s) && !IsOk(t) && s != t
    ensures SettledScreen(ChainResult(resource, Responded(s, b), parse)) !=
            SettledScreen(ChainResult(resource, Responded(t, c), parse))
  {
    NonOkShowsStatus(resource, s, b, parse);
    NonOkShowsStatus(resource, t, c, parse);
    if HttpErrorMessage(s) == HttpErrorMessage(t) {
      HttpErrorMessageInjective(s, t);
    }
  }

  /** An ok response with an empty array shows the empty state, not the error panel. */
  lemma EmptyArrayShowsEmptyState(resource: Resource, status: nat, parse: Parser)
    requires IsOk(status)
    ensures SettledScreen(ChainResult(resource, Responded(status, Parsed(JArr([]))), parse)) == EmptyState
  {
  }

  /** A body that is neither an array nor an envelope shows the empty state: the
      malformed content is absorbed, not reported as an error. */
  lemma NonArrayShowsEmptyState(resource: Resource, status: nat, data: Json, parse: Parser)
    requires IsOk(status) && !data.JNull? && !data.JArr? && !IsEnvelope(data)
    ensures SettledScreen(ChainResult(resource, Responded(status, Parsed(data)), parse)) == EmptyState
  {
    NormalizeTeamsIsPlainThenRepair(data, parse);
  }
}
