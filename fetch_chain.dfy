/** The promise chain each view runs once when it mounts
    (`fetch(url).then(check status, decode).then(normalise).catch(...)`, lines 12-44 of
    Teams.js and lines 12-30 of the other four views), seen as a function from how the
    request settled to what the chain hands to the view's state setters. */
module FetchChain {
  import opened Wrappers
  import opened Text
  import opened JsValues
  import opened Normalize

  /** What `response.json()` yields: the decoded value, or the message of its `SyntaxError`. */
  datatype Body = Parsed(data: Json) | Malformed(message: string)

  /** How the `fetch` promise settled: rejected (network failure) or with a response. */
  datatype FetchOutcome = NetworkFailure(message: string) | Responded(status: nat, body: Body)

  /** `response.ok`: the status is in the range 200-299. */
  predicate IsOk(status: nat) {
    200 <= status <= 299
  }

  const HttpErrorPrefix: string := "HTTP error! status: "

  /** The message of `new Error(`HTTP error! status: ${response.status}`)`. */
  function HttpErrorMessage(status: nat): string {
    HttpErrorPrefix + NatToString(status)
  }

  /** The message of a non-ok response names its status, which can be read back from it. */
  lemma HttpErrorMessageNamesStatus(status: nat)
    ensures HttpErrorMessage(status) != ""
    ensures Contains(HttpErrorMessage(status), "status: " + NatToString(status))
    ensures HttpErrorMessage(status)[..|HttpErrorPrefix|] == HttpErrorPrefix
    ensures DecimalValue(HttpErrorMessage(status)[|HttpErrorPrefix|..]) == status
  {
    var m := HttpErrorMessage(status);
    var needle := "status: " + NatToString(status);
    assert m == "HTTP error! " + needle;
    assert m[12..12 + |needle|] == needle;
    ContainsAt(m, needle, 12);
    assert m[|HttpErrorPrefix|..] == NatToString(status);
    NatToStringRoundTrip(status);
  }

  /** Distinct statuses give distinct messages. */
  lemma HttpErrorMessageInjective(s: nat, t: nat)
    requires HttpErrorMessage(s) == HttpErrorMessage(t)
    ensures s == t
  {
    HttpErrorMessageNamesStatus(s);
    HttpErrorMessageNamesStatus(t);
  }

  /** The five collection views. */
  datatype Resource = Users | Teams | Activities | Workouts | Leaderboard

  /** The normalisation a view applies: only the Teams view repairs `members`. */
  function NormalizeFor(resource: Resource, data: Json, parse: Parser): Result<seq<Json>, string> {
    if resource == Teams then NormalizeTeams(data, parse) else NormalizePlain(data)
  }

  /** What the chain delivers: the normalised list to the success handler, or the
      message of whatever was thrown to the catch handler. */
  function ChainResult(resource: Resource, outcome: FetchOutcome, parse: Parser): (r: Result<seq<Json>, string>)
    ensures r.Success? ==> outcome.Responded? && IsOk(outcome.status) && outcome.body.Parsed?
    ensures outcome.NetworkFailure? ==> r == Failure(outcome.message)
    ensures outcome.Responded? && !IsOk(outcome.status) ==> r == Failure(HttpErrorMessage(outcome.status))
    ensures outcome.Responded? && IsOk(outcome.status) && outcome.body.Malformed? ==> r == Failure(outcome.body.message)
    ensures outcome.Responded? && IsOk(outcome.status) && outcome.body.Parsed? ==>
              r == NormalizeFor(resource, outcome.body.data, parse)
  {
    match outcome
    case NetworkFailure(message) => Failure(message)
    case Responded(status, body) =>
      if !IsOk(status) then Failure(HttpErrorMessage(status))
      else
        match body
        case Malformed(message) => Failure(message)
        case Parsed(data) => NormalizeFor(resource, data, parse)
  }

  /** A non-ok response never reaches the success handler: the chain fails with a
      message that names the status, whatever the body. */
  lemma NonOkFails(resource: Resource, status: nat, body: Body, parse: Parser)
    requires !IsOk(status)
    ensures ChainResult(resource, Responded(status, body), parse).Failure?
    ensures DecimalValue(ChainResult(resource, Responded(status, body), parse).error[|HttpErrorPrefix|..]) == status
  {
    HttpErrorMessageNamesStatus(status);
  }

  /** An ok response whose body is a bare array delivers that array unchanged to every
      view but Teams; an empty array is a success with no items, not a failure. */
  lemma BareArrayDelivered(resource: Resource, status: nat, xs: seq<Json>, parse: Parser)
    requires IsOk(status) && resource != Teams
    ensures ChainResult(resource, Responded(status, Parsed(JArr(xs))), parse) == Success(xs)
  {
  }

  /** An ok response whose body is `null` ends in the catch handler: `data.results` throws. */
  lemma NullBodyFails(resource: Resource, status: nat, parse: Parser)
    requires IsOk(status)
    ensures ChainResult(resource, Responded(status, Parsed(JNull)), parse) == Failure(NullReadMessage("results"))
  {
  }

  /** The paginated envelope `{results: [...]}` and the bare array `[...]` give the same
      result, for every view. */
  lemma EnvelopeSameAsArray(resource: Resource, status: nat, fields: map<string, Json>, parse: Parser)
    requires IsOk(status) && "results" in fields && fields["results"].JArr?
    ensures ChainResult(resource, Responded(status, Parsed(JObj(fields))), parse)
         == ChainResult(resource, Responded(status, Parsed(fields["results"])), parse)
  {
    assert IsEnvelope(JObj(fields));
    NormalizeTeamsIsPlainThenRepair(JObj(fields), parse);
    NormalizeTeamsIsPlainThenRepair(fields["results"], parse);
  }
}
