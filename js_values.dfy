/** The JavaScript values a decoded JSON body can hold, with the three pieces of
    JavaScript semantics the views rely on: truthiness (`||`), property access
    (which throws on `null`) and object spread (`{...v}`). */
module JsValues {
  import opened Wrappers
  import opened Text

  /** A value produced by `JSON.parse` / `response.json()`. Numbers are integers here. */
  datatype Json =
    | JNull
    | JBool(b: bool)
    | JNum(n: int)
    | JStr(s: string)
    | JArr(elems: seq<Json>)
    | JObj(fields: map<string, Json>)

  /** JavaScript `ToBoolean` of a value that may be `undefined` (`None`). */
  predicate Truthy(v: Option<Json>) {
    match v
    case None => false
    case Some(JNull) => false
    case Some(JBool(b)) => b
    case Some(JNum(n)) => n != 0
    case Some(JStr(s)) => s != ""
    case Some(_) => true
  }

  /** `a || b`: `a` when it is truthy, otherwise `b`. */
  function Or(a: Option<Json>, b: Json): (r: Json)
    ensures Truthy(a) ==> a == Some(r)
    ensures !Truthy(a) ==> r == b
  {
    if Truthy(a) then a.value else b
  }

  /** The message of the `TypeError` thrown by reading a property of `null` (V8 wording). */
  function NullReadMessage(key: string): string {
    "Cannot read properties of null (reading '" + key + "')"
  }

  /** `v.key`, for a key that is neither an array index nor a built-in property name:
      throws on `null`, is the field of an object, and is `undefined` on every other value. */
  function GetProp(v: Json, key: string): (r: Result<Option<Json>, string>)
    ensures r.Failure? <==> v.JNull?
    ensures r.Failure? ==> r.error == NullReadMessage(key)
    ensures v.JObj? ==> r == Success(if key in v.fields then Some(v.fields[key]) else None)
    ensures !v.JNull? && !v.JObj? ==> r == Success(None)
  {
    match v
    case JNull => Failure(NullReadMessage(key))
    case JObj(fields) => Success(if key in fields then Some(fields[key]) else None)
    case _ => Success(None)
  }

  /** Decimal texts of smaller numbers differ from that of `n`. */
  lemma NatToStringFresh(n: nat)
    ensures forall i :: 0 <= i < n ==> NatToString(i) != NatToString(n)
  {
    forall i | 0 <= i < n
      ensures NatToString(i) != NatToString(n)
    {
      if NatToString(i) == NatToString(n) {
        NatToStringInjective(i, n);
      }
    }
  }

  /** The object `{"0": xs[0], "1": xs[1], ...}`. */
  function IndexKeyed(xs: seq<Json>): map<string, Json> {
    if xs == [] then map[]
    else IndexKeyed(xs[..|xs| - 1])[NatToString(|xs| - 1) := xs[|xs| - 1]]
  }

  /** `IndexKeyed` holds each element under the decimal text of its index, and no other key. */
  lemma IndexKeyedKeys(xs: seq<Json>)
    ensures forall i :: 0 <= i < |xs| ==> NatToString(i) in IndexKeyed(xs) && IndexKeyed(xs)[NatToString(i)] == xs[i]
    ensures forall k :: k in IndexKeyed(xs) ==> exists i :: 0 <= i < |xs| && k == NatToString(i)
  {
    IndexKeyedHas(xs);
    IndexKeyedOnly(xs);
  }

  lemma {:induction false} IndexKeyedHas(xs: seq<Json>)
    ensures forall i :: 0 <= i < |xs| ==> NatToString(i) in IndexKeyed(xs) && IndexKeyed(xs)[NatToString(i)] == xs[i]
  {
    if xs != [] {
      var n := |xs| - 1;
      IndexKeyedHas(xs[..n]);
      NatToStringFresh(n);
      forall i | 0 <= i < n
        ensures NatToString(i) in IndexKeyed(xs) && IndexKeyed(xs)[NatToString(i)] == xs[i]
      {
        assert NatToString(i) != NatToString(n);
        assert xs[..n][i] == xs[i];
      }
    }
  }

  lemma {:induction false} IndexKeyedOnly(xs: seq<Json>)
    ensures forall k :: k in IndexKeyed(xs) ==> exists i :: 0 <= i < |xs| && k == NatToString(i)
  {
    if xs != [] {
      var n := |xs| - 1;
      IndexKeyedOnly(xs[..n]);
      var front := IndexKeyed(xs[..n]);
      assert IndexKeyed(xs) == front[NatToString(n) := xs[n]];
      forall k | k in IndexKeyed(xs)
        ensures exists i :: 0 <= i < |xs| && k == NatToString(i)
      {
        if k == NatToString(n) {
          assert 0 <= n < |xs| && k == NatToString(n);
        } else {
          assert k in front;
          var i :| 0 <= i < n && k == NatToString(i);
          assert 0 <= i < |xs|;
        }
      }
      assert forall k :: k in IndexKeyed(xs) ==> exists i :: 0 <= i < |xs| && k == NatToString(i);
    }
  }

  /** The own enumerable properties that `{...v}` copies: the fields of an object, the
      elements of an array or the characters of a string under their index, and nothing
      for `null`, booleans and numbers. */
  function Spread(v: Json): map<string, Json> {
    match v
    case JObj(fields) => fields
    case JArr(_) => IndexKeyed(Indexed(v))
    case JStr(_) => IndexKeyed(Indexed(v))
    case _ => map[]
  }

  /** What a spread copies under index keys: the elements of an array, or the
      one-character strings of a string. */
  function Indexed(v: Json): (r: seq<Json>)
    requires v.JArr? || v.JStr?
    ensures v.JStr? ==> |r| == |v.s| && forall i :: 0 <= i < |r| ==> r[i] == JStr([v.s[i]])
  {
    if v.JArr? then v.elems else seq(|v.s|, i requires 0 <= i < |v.s| => JStr([v.s[i]]))
  }

  /** No index key is the name of a property that starts with a letter. */
  lemma IndexKeyIsNot(key: string)
    requires key != [] && !IsDigit(key[0])
    ensures forall i: nat :: NatToString(i) != key
  {
    forall i: nat
      ensures NatToString(i) != key
    {
      assert IsDigit(NatToString(i)[0]);
    }
  }
}
