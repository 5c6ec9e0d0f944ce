/** Normalising a decoded response body into the collection a view shows.
    Every view takes `data.results || data` and keeps it only when it is an array
    (lines 22-23 of each view component); the Teams view also
    repairs each record's `members` field (Teams.js lines 23-35). */
module Normalize {
  import opened Wrappers
  import opened Text
  import opened JsValues

  /** `JSON.parse`, seen from outside: the value it returns, or `None` where it throws. */
  type Parser = string -> Option<Json>

  /** `data.results` is usable exactly when it is present and truthy. */
  predicate HasTruthyResults(data: Json) {
    data.JObj? && "results" in data.fields && Truthy(Some(data.fields["results"]))
  }

  /** `data.results || data`: throws on a `null` body. */
  function Candidate(data: Json): (r: Result<Json, string>)
    ensures r.Failure? <==> data.JNull?
    ensures r.Failure? ==> r.error == NullReadMessage("results")
    ensures r.Success? && HasTruthyResults(data) ==> r.value == data.fields["results"]
    ensures r.Success? && !HasTruthyResults(data) ==> r.value == data
  {
    match GetProp(data, "results")
    case Failure(e) => Failure(e)
    case Success(results) => Success(Or(results, data))
  }

  /** `Array.isArray(c) ? c : []`. */
  function AsArray(c: Json): seq<Json> {
    if c.JArr? then c.elems else []
  }

  /** A paginated envelope: an object whose `results` field is an array. */
  predicate IsEnvelope(data: Json) {
    data.JObj? && "results" in data.fields && data.fields["results"].JArr?
  }

  /** The normalisation of the Users, Activities, Workouts and Leaderboard views.
      A bare array is kept as it is, an envelope gives its `results`, a `null` body
      throws, and every other body gives the empty list. */
  function NormalizePlain(data: Json): (r: Result<seq<Json>, string>)
    ensures data.JNull? ==> r == Failure(NullReadMessage("results"))
    ensures data.JArr? ==> r == Success(data.elems)
    ensures IsEnvelope(data) ==> r == Success(data.fields["results"].elems)
    ensures !data.JNull? && !data.JArr? && !IsEnvelope(data) ==> r == Success([])
  {
    match Candidate(data)
    case Failure(e) => Failure(e)
    case Success(c) => Success(AsArray(c))
  }

  /** The `members` repair of one record: a string goes through `JSON.parse` (a throw
      giving `[]`), and whatever is then not an array becomes `[]`. */
  function RepairMembers(members: Option<Json>, parse: Parser): (r: Json)
    ensures r.JArr?
    ensures members.Some? && members.value.JArr? ==> r == members.value
    ensures members.Some? && members.value.JStr? ==>
              r == (var p := parse(members.value.s);
                    if p.Some? && p.value.JArr? then p.value else JArr([]))
    ensures members.None? || !(members.value.JArr? || members.value.JStr?) ==> r == JArr([])
  {
    var repaired :=
      if members.Some? && members.value.JStr? then
        match parse(members.value.s)
        case Some(v) => Some(v)
        case None => Some(JArr([]))
      else members;
    if repaired.Some? && repaired.value.JArr? then repaired.value else JArr([])
  }

  /** `{ ...team, members: ... }`: reading `team.members` throws on a `null` record. An
      object record keeps its fields; an array or string record is spread into its index
      keys; a boolean or number record has nothing to spread. Every result has an array
      `members`. */
  function RepairTeam(team: Json, parse: Parser): (r: Result<Json, string>)
    ensures r.Failure? <==> team.JNull?
    ensures r.Failure? ==> r.error == NullReadMessage("members")
    ensures r.Success? ==> r.value.JObj? && "members" in r.value.fields && r.value.fields["members"].JArr?
    ensures team.JObj? ==> r.Success? && r.value.fields.Keys == team.fields.Keys + {"members"}
    ensures team.JObj? ==> forall k :: k in team.fields && k != "members" ==> r.value.fields[k] == team.fields[k]
    ensures team.JObj? ==> r.value.fields["members"] == RepairMembers(if "members" in team.fields then Some(team.fields["members"]) else None, parse)
    ensures team.JObj? && "members" in team.fields && team.fields["members"].JArr? ==> r == Success(team)
    ensures team.JArr? || team.JStr? ==> r.Success? && r.value.fields["members"] == JArr([])
    ensures team.JArr? || team.JStr? ==>
              forall i :: 0 <= i < |Indexed(team)| ==>
                NatToString(i) in r.value.fields && r.value.fields[NatToString(i)] == Indexed(team)[i]
    ensures team.JArr? || team.JStr? ==>
              forall k :: k in r.value.fields ==> k == "members" || exists i :: 0 <= i < |Indexed(team)| && k == NatToString(i)
    ensures team.JBool? || team.JNum? ==> r == Success(JObj(map["members" := JArr([])]))
  {
    match GetProp(team, "members")
    case Failure(e) => Failure(e)
    case Success(members) =>
      var fields := Spread(team)["members" := RepairMembers(members, parse)];
      assert team.JObj? && members.Some? && members.value.JArr? ==> fields == team.fields;
      if team.JArr? || team.JStr? then
        IndexKeyedKeys(Indexed(team));
        IndexKeyIsNot("members");
        Success(JObj(fields))
      else
        Success(JObj(fields))
  }

  /** `teams.map(team => ...)`: stops at the first record that throws. */
  function RepairAll(teams: seq<Json>, parse: Parser): (r: Result<seq<Json>, string>)
    ensures r.Failure? <==> JNull in teams
    ensures r.Failure? ==> r.error == NullReadMessage("members")
    ensures r.Success? ==> |r.value| == |teams|
    ensures r.Success? ==> forall i :: 0 <= i < |teams| ==> RepairTeam(teams[i], parse) == Success(r.value[i])
  {
    if teams == [] then Success([])
    else
      match RepairTeam(teams[0], parse)
      case Failure(e) => Failure(e)
      case Success(t) =>
        match RepairAll(teams[1..], parse)
        case Failure(e) => Failure(e)
        case Success(ts) => Success([t] + ts)
  }

  /** The Teams view's normalisation: the plain one, then the `members` repair. */
  function NormalizeTeams(data: Json, parse: Parser): Result<seq<Json>, string>
  {
    match Candidate(data)
    case Failure(e) => Failure(e)
    case Success(c) => RepairAll(AsArray(c), parse)
  }

  /** The Teams normalisation is the plain normalisation followed by the repair; it
      keeps the number and order of the records, and every record ends with an array
      `members` field. */
  lemma NormalizeTeamsIsPlainThenRepair(data: Json, parse: Parser)
    ensures data.JNull? ==> NormalizeTeams(data, parse) == Failure(NullReadMessage("results"))
    ensures !data.JNull? ==> NormalizeTeams(data, parse) == RepairAll(NormalizePlain(data).value, parse)
    ensures NormalizeTeams(data, parse).Success? ==>
              var ts := NormalizeTeams(data, parse).value;
              |ts| == |NormalizePlain(data).value| &&
              forall i :: 0 <= i < |ts| ==>
                ts[i].JObj? && "members" in ts[i].fields && ts[i].fields["members"].JArr?
  {
  }

  /** Repairing a repaired list changes nothing. */
  lemma {:induction false} RepairAllIdempotent(teams: seq<Json>, parse: Parser)
    requires RepairAll(teams, parse).Success?
    ensures RepairAll(RepairAll(teams, parse).value, parse) == RepairAll(teams, parse)
  {
    var ys := RepairAll(teams, parse).value;
    forall i | 0 <= i < |ys|
      ensures RepairTeam(ys[i], parse) == Success(ys[i])
    {
      assert RepairTeam(teams[i], parse) == Success(ys[i]);
    }
    assert JNull !in ys;
    var zs := RepairAll(ys, parse).value;
    assert |zs| == |ys|;
    forall i | 0 <= i < |ys|
      ensures zs[i] == ys[i]
    {
      assert RepairTeam(ys[i], parse) == Success(zs[i]);
    }
    assert zs == ys;
  }
}
