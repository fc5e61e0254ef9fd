/**
  The one entry point to the Marketo REST API (src/Client.php): `send` resolves
  the environment, fetches an OAuth token, flattens the caller's query, adds the
  token, builds the URL, picks the body encoding and dispatches on the decoded
  envelope.

  The network (the token request and the API request) and PHP's encoders
  (`http_build_query`, `json_encode`, `json_decode`) are inputs of the model:
  `Network` and `Codec` hold them as functions, so every property below holds
  whatever the server answers and however the encoders order their output.
*/
module Client {
  import opened Php
  import Environment
  import Results

  /** PHP's encoders, which the library calls but does not define. */
  datatype Codec = Codec(
    buildQuery: Val -> string,           // http_build_query
    jsonEncode: Val -> string,           // json_encode
    jsonDecode: string -> Val,           // json_decode(..., true); an invalid text gives null
    implodeKeyed: map<string, Val> -> string) // implode(',', ...) on a keyed array, in its insertion order

  /** What `curl_exec` hands back: the response text, or false. */
  datatype Wire = Delivered(text: string) | CurlFailed

  /** The body curl is given. */
  datatype Body = NoBody | JsonBody(payload: Val) | FormBody(payload: Val)

  /** An API request as `send` sets it up: method, URL, the query the URL encodes, and the body. */
  datatype HttpRequest = HttpRequest(verb: string, url: string, query: map<string, Val>, body: Body)

  /** The server side: the answer to a token URL, and the answer to an API request. */
  datatype Network = Network(fetchToken: string -> Wire, transmit: HttpRequest -> Wire)

  /** How a call to `send` ends. */
  datatype Outcome =
    | ConfigurationError(message: string)  // the plain Exception thrown without an environment
    | RawReturned(raw: Wire)               // $return_raw: curl's answer, unparsed
    | ResultReturned(result: Results.Result)
    | ApiError(errors: Val)                // the ErrorException and the errors it carries

  /** A call to `send`: the token URL fetched, the request transmitted, and the outcome. */
  datatype Trace = Trace(tokenUrl: Option<string>, request: Option<HttpRequest>, outcome: Outcome)

  const NotConfiguredMessage: string :=
    "The client API has not been configured properly.  Please call Environment::configure() before making calls."

  /** The entries `foreach ($params['query'] as $key => $vals)` visits: those of a keyed
      array, a list's entries under their decimal positions, and none for anything else. */
  function QuerySource(params: map<string, Val>): (src: map<string, Val>)
    ensures !IsSetIn(params, "query") ==> src == map[]
    ensures IsSetIn(params, "query") && params["query"].Obj? ==> src == params["query"].fields
    ensures IsSetIn(params, "query") && params["query"].Arr? ==> src == PositionMap(params["query"].items)
    ensures IsSetIn(params, "query") && !IsArray(params["query"]) ==> src == map[]
  {
    if !IsSetIn(params, "query") then map[]
    else match params["query"]
      case Obj(fields) => fields
      case Arr(items) => PositionMap(items)
      case _ => map[]
  }

  /** A list as the keyed array PHP sees: each element under its decimal position. */
  function PositionMap(items: seq<Val>): map<string, Val>
    decreases |items|
  {
    if items == [] then map[]
    else PositionMap(items[..|items| - 1])[NatToString(|items| - 1) := items[|items| - 1]]
  }

  /** Each element sits under its decimal position. */
  lemma {:induction false} PositionMapHasElements(items: seq<Val>)
    ensures forall i: nat :: i < |items| ==> NatToString(i) in PositionMap(items) && PositionMap(items)[NatToString(i)] == items[i]
    decreases |items|
  {
    if items != [] {
      var n := |items| - 1;
      var init := items[..n];
      PositionMapHasElements(init);
      forall i: nat | i < |items|
        ensures NatToString(i) in PositionMap(items) && PositionMap(items)[NatToString(i)] == items[i]
      {
        if i < n {
          ListIndexOfNatToString(i);
          ListIndexOfNatToString(n);
          assert NatToString(i) != NatToString(n);
          assert init[i] == items[i];
        }
      }
    }
  }

  /** Every key is the decimal position of an element, and holds that element. */
  lemma {:induction false} PositionMapOnlyPositions(items: seq<Val>)
    ensures forall k :: k in PositionMap(items) ==>
              ListIndex(k).Some? && ListIndex(k).value < |items| && PositionMap(items)[k] == items[ListIndex(k).value]
    decreases |items|
  {
    if items != [] {
      var n := |items| - 1;
      var init := items[..n];
      PositionMapOnlyPositions(init);
      forall k | k in PositionMap(items)
        ensures ListIndex(k).Some? && ListIndex(k).value < |items| && PositionMap(items)[k] == items[ListIndex(k).value]
      {
        if k == NatToString(n) {
          ListIndexOfNatToString(n);
        } else {
          assert k in PositionMap(init);
          assert init[ListIndex(k).value] == items[ListIndex(k).value];
        }
      }
    }
  }

  /** What one query entry becomes: an array is comma-joined, anything else passes unchanged. */
  function FlattenValue(v: Val, codec: Codec): (w: Val)
    ensures !IsArray(v) ==> w == v
    ensures IsArray(v) ==> w.Str?
  {
    match v
    case Arr(items) => Str(Implode(",", items))
    case Obj(fields) => Str(codec.implodeKeyed(fields))
    case _ => v
  }

  /** A list of comma-free texts survives flattening: splitting the joined text at the commas
      gives each element back, in order. */
  lemma FlattenListRoundTrip(items: seq<Val>, codec: Codec)
    requires items != []
    requires forall k :: 0 <= k < |items| ==> ',' !in ToText(items[k])
    ensures FlattenValue(Arr(items), codec).Str?
    ensures Split(',', FlattenValue(Arr(items), codec).s) == Texts(items)
  {
    SplitImplode(',', items);
  }

  /** The query on the wire: every caller entry, flattened, and `access_token` set to the
      fetched token's, in place of any caller entry of that name. */
  function WireQuery(params: map<string, Val>, token: Val, codec: Codec): (q: map<string, Val>)
    ensures q.Keys == QuerySource(params).Keys + {"access_token"}
    ensures q["access_token"] == Lookup(token, "access_token")
    ensures forall k :: k in QuerySource(params) && k != "access_token" ==> q[k] == FlattenValue(QuerySource(params)[k], codec)
    ensures !IsSetIn(params, "query") ==> q.Keys == {"access_token"}
  {
    var src := QuerySource(params);
    (map k | k in src :: FlattenValue(src[k], codec))["access_token" := Lookup(token, "access_token")]
  }

  /** The foreach of `send` over the caller's query, writing each flattened entry. */
  method FlattenQuery(src: map<string, Val>, codec: Codec) returns (query: map<string, Val>)
    ensures query.Keys == src.Keys
    ensures forall k :: k in src ==> query[k] == FlattenValue(src[k], codec)
  {
    query := map[];
    var pending := src.Keys;
    while pending != {}
      invariant pending <= src.Keys
      invariant query.Keys == src.Keys - pending
      invariant forall k :: k in query ==> query[k] == FlattenValue(src[k], codec)
      decreases |pending|
    {
      var key :| key in pending;
      query := query[key := FlattenValue(src[key], codec)];
      pending := pending - {key};
    }
  }

  /** The API request URL: the endpoint, a slash, the path, `?` and the encoded query. Since the
      endpoint already ends in a slash, the path always follows `/rest/v1//`. */
  function RequestUrl(env: Environment.Environment, path: string, query: map<string, Val>, codec: Codec): (url: string)
    ensures url == "https://" + env.munchkinId + ".mktorest.com/rest/v1//" + path + "?" + codec.buildQuery(Obj(query))
  {
    env.GetEndpoint() + "/" + path + "?" + codec.buildQuery(Obj(query))
  }

  /** The token URL `getToken` fetches: the account's OAuth endpoint with the client-credentials grant. */
  function TokenRequestUrl(env: Environment.Environment, codec: Codec): (url: string)
    ensures url == "https://" + env.munchkinId + ".mktorest.com/identity/oauth/token?" + codec.buildQuery(TokenParams(env))
  {
    "https://" + env.GetMunchkinId() + ".mktorest.com/identity/oauth/token" + "?" + codec.buildQuery(TokenParams(env))
  }

  /** The parameters of the token request. */
  function TokenParams(env: Environment.Environment): (p: Val)
    ensures p.Obj? && p.fields.Keys == {"grant_type", "client_id", "client_secret"}
    ensures p.fields["grant_type"] == Str("client_credentials")
    ensures p.fields["client_id"] == Str(env.clientId) && p.fields["client_secret"] == Str(env.clientSecret)
  {
    Obj(map["grant_type" := Str("client_credentials"),
            "client_id" := Str(env.GetClientId()),
            "client_secret" := Str(env.GetClientSecret())])
  }

  predicate CarriesBody(verb: string) {
    verb == "POST" || verb == "DELETE"
  }

  /** The body is attached when the entry is set, has entries and the method is POST or DELETE. */
  predicate Qualifies(params: map<string, Val>, key: string, verb: string) {
    IsSetIn(params, key) && Count(params[key]) > 0 && CarriesBody(verb)
  }

  /** The body `send` gives curl: JSON when `body` qualifies, else form-encoded when
      `form-encode` qualifies, else none. Only POST and DELETE ever carry one. */
  function ChooseBody(verb: string, params: map<string, Val>): (b: Body)
    ensures b.JsonBody? <==> Qualifies(params, "body", verb)
    ensures b.FormBody? <==> !Qualifies(params, "body", verb) && Qualifies(params, "form-encode", verb)
    ensures b.JsonBody? ==> b.payload == params["body"]
    ensures b.FormBody? ==> b.payload == params["form-encode"]
    ensures !CarriesBody(verb) ==> b == NoBody
  {
    if Qualifies(params, "body", verb) then JsonBody(params["body"])
    else if Qualifies(params, "form-encode", verb) then FormBody(params["form-encode"])
    else NoBody
  }

  /** The text curl transmits as the request body, if any. */
  function PostFields(b: Body, codec: Codec): Option<string> {
    match b
    case NoBody => None
    case JsonBody(payload) => Some(codec.jsonEncode(payload))
    case FormBody(payload) => Some(codec.buildQuery(payload))
  }

  /** `json_decode` of what curl returned; false decodes to null. */
  function Decode(w: Wire, codec: Codec): (v: Val)
    ensures w.CurlFailed? ==> v == Null
  {
    match w
    case Delivered(text) => codec.jsonDecode(text)
    case CurlFailed => Null
  }

  /** The end of `send`: the raw answer when asked for, a Result around the decoded envelope when
      its `success` is truthy, and otherwise an error carrying its `errors` entry unchanged. */
  function Dispatch(returnRaw: bool, w: Wire, codec: Codec): (o: Outcome)
    ensures returnRaw ==> o == RawReturned(w)
    ensures !returnRaw && Truthy(Lookup(Decode(w, codec), "success")) ==> o == ResultReturned(Results.Result(Decode(w, codec)))
    ensures !returnRaw && !Truthy(Lookup(Decode(w, codec), "success")) ==> o == ApiError(Lookup(Decode(w, codec), "errors"))
    ensures !o.ConfigurationError?
  {
    if returnRaw then RawReturned(w)
    else
      var json := Decode(w, codec);
      if Truthy(Lookup(json, "success")) then ResultReturned(Results.Result(json))
      else ApiError(Lookup(json, "errors"))
  }

  /** A failed transfer never reads as a success: without the raw flag it ends in an error with null errors. */
  lemma CurlFailureIsApiError(codec: Codec)
    ensures Dispatch(false, CurlFailed, codec) == ApiError(Null)
  {
  }

  /** `send` once the environment is resolved (the argument, or else the configured one). */
  function Exchange(env: Environment.Environment?, net: Network, codec: Codec, verb: string, path: string,
                    params: map<string, Val>, returnRaw: bool): (t: Trace)
    ensures env == null <==> t.outcome.ConfigurationError?
    ensures env == null ==> t == Trace(None, None, ConfigurationError(NotConfiguredMessage))
    ensures env != null ==> t.tokenUrl == Some(TokenRequestUrl(env, codec)) && t.request.Some?
    ensures env != null ==> t.outcome == Dispatch(returnRaw, net.transmit(t.request.value), codec)
  {
    if env == null then Trace(None, None, ConfigurationError(NotConfiguredMessage))
    else
      var tokenUrl := TokenRequestUrl(env, codec);
      var token := Decode(net.fetchToken(tokenUrl), codec);
      var query := WireQuery(params, token, codec);
      var request := HttpRequest(verb, RequestUrl(env, path, query, codec), query, ChooseBody(verb, params));
      Trace(Some(tokenUrl), Some(request), Dispatch(returnRaw, net.transmit(request), codec))
  }

  /** The request of a configured call carries the fetched token, the flattened caller query,
      the `/rest/v1//path` URL and the body `ChooseBody` picks. */
  lemma ExchangeRequest(env: Environment.Environment, net: Network, codec: Codec, verb: string, path: string,
                        params: map<string, Val>, returnRaw: bool)
    ensures var t := Exchange(env, net, codec, verb, path, params, returnRaw);
            var token := Decode(net.fetchToken(TokenRequestUrl(env, codec)), codec);
            && t.request.Some?
            && t.request.value.verb == verb
            && t.request.value.query == WireQuery(params, token, codec)
            && t.request.value.query["access_token"] == Lookup(token, "access_token")
            && t.request.value.url == "https://" + env.munchkinId + ".mktorest.com/rest/v1//" + path + "?" + codec.buildQuery(Obj(t.request.value.query))
            && t.request.value.body == ChooseBody(verb, params)
  {
  }

  /** Without an environment nothing reaches the network: the outcome is the same whatever
      the server would answer. */
  lemma UnconfiguredIgnoresNetwork(net1: Network, net2: Network, codec: Codec, verb: string, path: string,
                                   params: map<string, Val>, returnRaw: bool)
    ensures Exchange(null, net1, codec, verb, path, params, returnRaw) == Exchange(null, net2, codec, verb, path, params, returnRaw)
  {
  }

  /** `Client::send`: the environment argument if given, otherwise the configured one. */
  method Send(slot: Environment.EnvironmentSlot, net: Network, codec: Codec, verb: string, path: string,
              params: map<string, Val> := map[], env: Environment.Environment? := null, returnRaw: bool := false)
    returns (t: Trace)
    ensures t == Exchange(if env != null then env else slot.CurrentEnvironment(), net, codec, verb, path, params, returnRaw)
  {
    var e := env;
    if e == null {
      e := slot.CurrentEnvironment();
    }
    if e == null {
      return Trace(None, None, ConfigurationError(NotConfiguredMessage));
    }
    var tokenUrl := TokenRequestUrl(e, codec);
    var token := Decode(net.fetchToken(tokenUrl), codec);
    var query := FlattenQuery(QuerySource(params), codec);
    query := query["access_token" := Lookup(token, "access_token")];
    assert query == WireQuery(params, token, codec);
    var url := e.GetEndpoint() + "/" + path + "?" + codec.buildQuery(Obj(query));
    var body := ChooseBody(verb, params);
    var request := HttpRequest(verb, url, query, body);
    var raw := net.transmit(request);
    t := Trace(Some(tokenUrl), Some(request), Dispatch(returnRaw, raw, codec));
  }
}
