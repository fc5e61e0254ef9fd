/**
  What a request builder of src/Model/ hands to `Client::send`, and how `send`
  will read it.

  Every builder ends in one call `Client::send($method, $path, $params, ...)`
  whose answer it may post-process (view it through some class's `manufacture`,
  or ask it for its next-page token), or it raises before calling, or it
  returns null without calling. `Built` records which, and `QueryOf` / `BodyOf`
  are what `send` makes of the parameters: the caller query it flattens and
  the body it actually transmits.
*/
module Requests {
  import opened Php
  import opened ModelBase
  import Client

  /** What the builder does with the answer of `send`. */
  datatype Wrap =
    | Unwrapped               // returns it as is
    | Manufactured(kind: Kind) // passes it to that view class's `manufacture`
    | NextPageTokenOf         // calls `getNextPageToken()` on it, which `Result` does not define

  datatype Call = Call(verb: string, path: string, params: map<string, Val>, raw: bool, wrap: Wrap)

  datatype Built =
    | Sends(call: Call)
    | Rejected(message: string)  // an exception thrown before any request
    | Skipped                    // null returned without any request

  /** `Client::send($verb, $path, ['query' => $query])` */
  function Query(verb: string, path: string, query: map<string, Val>, wrap: Wrap): Built {
    Sends(Call(verb, path, map["query" := Obj(query)], false, wrap))
  }

  /** `Client::send($verb, $path, ['body' => $body])` */
  function Body(verb: string, path: string, body: Val, wrap: Wrap): Built {
    Sends(Call(verb, path, map["body" := body], false, wrap))
  }

  /** `Client::send($verb, $path)` */
  function Bare(verb: string, path: string, wrap: Wrap): Built {
    Sends(Call(verb, path, map[], false, wrap))
  }

  /** The builder sends, with this method, path and post-processing, and asks for a parsed answer. */
  predicate Sent(b: Built, verb: string, path: string, wrap: Wrap) {
    b.Sends? && b.call.verb == verb && b.call.path == path && b.call.wrap == wrap && !b.call.raw
  }

  /** The caller query `send` flattens into the URL (before it adds `access_token`). */
  function QueryOf(b: Built): map<string, Val>
    requires b.Sends?
  {
    Client.QuerySource(b.call.params)
  }

  /** The body `send` transmits. */
  function BodyOf(b: Built): Client.Body
    requires b.Sends?
  {
    Client.ChooseBody(b.call.verb, b.call.params)
  }

  /** The entries of the JSON object a builder transmits (none when it transmits no keyed body). */
  function JsonFields(b: Built): map<string, Val>
    requires b.Sends?
  {
    var body := BodyOf(b);
    if body.JsonBody? && body.payload.Obj? then body.payload.fields else map[]
  }

  /** The keyed entries a builder passes under `key` of its parameters, whether or not `send`
      then transmits them. */
  function ParamFields(b: Built, key: string): map<string, Val>
    requires b.Sends?
  {
    if key in b.call.params && b.call.params[key].Obj? then b.call.params[key].fields else map[]
  }

  /** The map holds `v` under `key`. */
  predicate Has(m: map<string, Val>, key: string, v: Val) {
    key in m && m[key] == v
  }

  /** A query builder's map is exactly the caller query `send` sees, and nothing is transmitted as a body. */
  lemma QueryReachesSend(verb: string, path: string, query: map<string, Val>, wrap: Wrap)
    ensures QueryOf(Query(verb, path, query, wrap)) == query
    ensures BodyOf(Query(verb, path, query, wrap)) == Client.NoBody
  {
  }

  /** A body is transmitted as JSON exactly when it has entries and the method is POST or DELETE;
      it never contributes to the query. */
  lemma BodyReachesSend(verb: string, path: string, body: Val, wrap: Wrap)
    ensures QueryOf(Body(verb, path, body, wrap)) == map[]
    ensures BodyOf(Body(verb, path, body, wrap)) ==
              if !IsNull(body) && Count(body) > 0 && Client.CarriesBody(verb) then Client.JsonBody(body) else Client.NoBody
  {
  }

  /** A builder with no parameters sends neither a caller query nor a body. */
  lemma BareSendsNothing(verb: string, path: string, wrap: Wrap)
    ensures QueryOf(Bare(verb, path, wrap)) == map[]
    ensures BodyOf(Bare(verb, path, wrap)) == Client.NoBody
  {
  }

  /** `if (!is_null($v)) $m[$key] = $v;`, as a condition on the finished map: the key is present
      exactly when the value is not null, and then holds it. */
  predicate PutUnlessNull(m: map<string, Val>, key: string, v: Val) {
    (key in m <==> !IsNull(v)) && (key in m ==> m[key] == v)
  }

  /** `if (!empty($v)) $m[$key] = $v;`, as a condition on the finished map. */
  predicate PutUnlessEmpty(m: map<string, Val>, key: string, v: Val) {
    (key in m <==> !Empty(v)) && (key in m ==> m[key] == v)
  }

  /** `if (!is_null($v)) $m[$key] = $v;` as one step. */
  method SetUnlessNull(m: map<string, Val>, key: string, v: Val) returns (r: map<string, Val>)
    ensures key !in m ==> PutUnlessNull(r, key, v)
    ensures r == if IsNull(v) then m else m[key := v]
  {
    r := m;
    if !IsNull(v) {
      r := r[key := v];
    }
  }

  /** `if (!empty($v)) $m[$key] = $v;` as one step. */
  method SetUnlessEmpty(m: map<string, Val>, key: string, v: Val) returns (r: map<string, Val>)
    ensures key !in m ==> PutUnlessEmpty(r, key, v)
    ensures r == if Empty(v) then m else m[key := v]
  {
    r := m;
    if !Empty(v) {
      r := r[key := v];
    }
  }

  /** The two insertion guards differ: an empty string, a zero, false or an empty
      array is inserted under `is_null` but not under `empty`. */
  lemma {:induction false} GuardsDiffer(m: map<string, Val>, key: string, v: Val)
    requires Empty(v) && !IsNull(v)
    requires PutUnlessNull(m, key, v)
    ensures !PutUnlessEmpty(m, key, v)
  {
    assert key in m;
  }
}
