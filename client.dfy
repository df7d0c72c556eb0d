/** The provider client `do_call`: how the plugin shapes a request to the provider's API and how it
    maps the HTTP reply to a result, plus the cached subaccount list built on top of it. */
module Client {
  import opened Php
  import opened Host

  const Endpoint := "http://mandrillapp.com/api/1.0/"

  /** The second argument of `do_call`: an array of request fields, or a boolean given in its place. */
  datatype Data = Fields(fields: map<string, Value>) | Flag(flag: bool)

  /** The POST request that `do_call` hands to the HTTP client, and whether it answers with the body only. */
  datatype Request = Request(url: string, timeout: int, sslVerify: bool, body: map<string, Value>, bodyOnly: bool)

  /** A decoded JSON document. */
  datatype Json = JNull | JBool(b: bool) | JInt(i: int) | JStr(s: string) | JArray(items: seq<Json>) | JObject(fields: map<string, Json>)

  /** What the HTTP client returns: a transport error, or a status code with headers and the decoded body. */
  datatype HttpReply = TransportError(error: WpError) | Http(code: int, headers: map<string, string>, body: Json)

  /** What `do_call` returns: an error, the body alone, or the body wrapped with the code and headers. */
  datatype CallResult = Error(error: WpError) | Body(body: Json) | Wrapped(code: int, headers: map<string, string>, body: Json)

  /** PHP's `$body->name`: a member of a decoded object, null when it is missing. */
  function Member(j: Json, name: string): Json
  {
    if j.JObject? && name in j.fields then j.fields[name] else JNull
  }

  /** PHP's `empty()` of a decoded JSON value: null, false, 0, "", "0" and the empty array. */
  predicate IsEmpty(j: Json)
  {
    j == JNull || j == JBool(false) || j == JInt(0) || j == JStr("") || j == JStr("0") || j == JArray([])
  }

  /** `new WP_Error(code, message)`: WordPress stores nothing when the code is empty, so such an error
      has neither code nor message. */
  function NewError(code: Json, message: Json): (e: WpError)
    ensures IsEmpty(code) ==> e == WpError("", "")
    ensures !IsEmpty(code) ==> e.code == Text(code) && e.message == Text(message)
  {
    if IsEmpty(code) then WpError("", "") else WpError(Text(code), Text(message))
  }

  /** A member read as a string; anything but a string reads as empty. */
  function Text(j: Json): string
  {
    if j.JStr? then j.s else ""
  }

  /** The argument handling of `do_call`: a boolean second argument stands for `bodyonly` with no
      fields, and the API key is a default that the caller's own `key` field overrides. */
  function PrepareCall(path: string, data: Data, bodyOnly: bool, timeout: int, apiKey: Value): (r: Request)
    ensures r.url == Endpoint + path + ".json"
    ensures r.timeout == timeout && !r.sslVerify
    ensures data.Flag? ==> r.bodyOnly == data.flag && r.body == map["key" := apiKey]
    ensures data.Fields? ==> r.bodyOnly == bodyOnly && r.body.Keys == data.fields.Keys + {"key"}
    ensures data.Fields? ==> forall k :: k in data.fields ==> r.body[k] == data.fields[k]
    ensures data.Fields? && "key" !in data.fields ==> r.body["key"] == apiKey
  {
    var fields := if data.Flag? then map[] else data.fields;
    var only := if data.Flag? then data.flag else bodyOnly;
    Request(Endpoint + path + ".json", timeout, false, map["key" := apiKey] + fields, only)
  }

  /** The reply handling of `do_call`: transport errors pass through, a status other than 200 becomes
      an error built from the body's `name` and `message` (empty when the name is), and a 200 gives the body or the wrapped reply. */
  function Interpret(reply: HttpReply, bodyOnly: bool): (r: CallResult)
    ensures reply.TransportError? ==> r == Error(reply.error)
    ensures r.Error? <==> reply.TransportError? || reply.code != 200
    ensures reply.Http? && reply.code != 200 && !IsEmpty(Member(reply.body, "name")) ==>
      r.error == WpError(Text(Member(reply.body, "name")), Text(Member(reply.body, "message")))
    ensures reply.Http? && reply.code != 200 && IsEmpty(Member(reply.body, "name")) ==>
      r.error == WpError("", "")
    ensures r.Body? <==> reply.Http? && reply.code == 200 && bodyOnly
    ensures !r.Error? ==> r.body == reply.body
    ensures r.Wrapped? ==> r.code == 200 && r.headers == reply.headers
  {
    match reply
    case TransportError(e) => Error(e)
    case Http(code, headers, body) =>
      if code != 200 then Error(NewError(Member(body, "name"), Member(body, "message")))
      else if bodyOnly then Body(body)
      else Wrapped(code, headers, body)
  }

  /** `do_call(path, data, bodyonly, timeout)`: the request it sends and the result it returns for the
      HTTP client's reply to that request. */
  function DoCall(path: string, data: Data, bodyOnly: bool, timeout: int, apiKey: Value, reply: HttpReply): (r: (Request, CallResult))
    ensures r.0.url == Endpoint + path + ".json" && r.0.timeout == timeout && !r.0.sslVerify
    ensures r.1.Error? <==> reply.TransportError? || reply.code != 200
    ensures r.1.Body? <==> reply.Http? && reply.code == 200 && (if data.Flag? then data.flag else bodyOnly)
    ensures !r.1.Error? ==> r.1.body == reply.body
  {
    var request := PrepareCall(path, data, bodyOnly, timeout, apiKey);
    (request, Interpret(reply, request.bodyOnly))
  }

  /** Passing a boolean as the data argument is the same call as passing no fields and that boolean as
      `bodyonly`, whatever `bodyonly` argument is also given. */
  lemma FlagIsBodyOnly(path: string, flag: bool, ignored: bool, timeout: int, apiKey: Value, reply: HttpReply)
    ensures DoCall(path, Flag(flag), ignored, timeout, apiKey, reply) == DoCall(path, Fields(map[]), flag, timeout, apiKey, reply)
  {
    assert map["key" := apiKey] + map[] == map["key" := apiKey];
  }

  /** The body-only result is the body of the wrapped result: the two shapes carry the same answer. */
  lemma BodyOnlyProjectsWrapped(reply: HttpReply)
    ensures Interpret(reply, false).Wrapped? <==> Interpret(reply, true).Body?
    ensures Interpret(reply, false).Wrapped? ==> Interpret(reply, true).body == Interpret(reply, false).body
    ensures Interpret(reply, false).Error? ==> Interpret(reply, true) == Interpret(reply, false)
  {
  }

  /** A `key` given by the caller is sent as given; the stored API key only fills in a missing one. */
  lemma CallerKeyWins(path: string, fields: map<string, Value>, key: Value, bodyOnly: bool, timeout: int, apiKey: Value)
    ensures PrepareCall(path, Fields(fields["key" := key]), bodyOnly, timeout, apiKey).body == fields["key" := key]
  {
    var r := PrepareCall(path, Fields(fields["key" := key]), bodyOnly, timeout, apiKey);
    assert r.body.Keys == fields["key" := key].Keys;
  }

  const SubaccountsCache := "mailster_mandrill_subaccounts"

  /** `get_subaccounts`: the subaccount list from a one-hour transient cache; on a miss (or a cached
      empty list) it asks the provider, caches a successful answer and falls back to an empty list. */
  method GetSubaccounts(site: Site, now: int, reply: Reply<seq<Value>>) returns (accounts: Value)
    modifies site`transients, site`log
    ensures var cached := GetTransient(old(site.transients), SubaccountsCache, now);
      if Truthy(cached) then
        accounts == cached && site.log == old(site.log) && site.transients == old(site.transients)
      else
        site.log == old(site.log) + [SubaccountsList] &&
        (reply.Success? ==>
           accounts == List(reply.value) &&
           site.transients == SetTransient(old(site.transients), SubaccountsCache, List(reply.value), 3600, now)) &&
        (reply.Failure? ==> accounts == List([]) && site.transients == old(site.transients))
  {
    accounts := GetTransient(site.transients, SubaccountsCache, now);
    if !Truthy(accounts) {
      site.log := site.log + [SubaccountsList];
      if reply.Success? {
        accounts := List(reply.value);
        site.transients := SetTransient(site.transients, SubaccountsCache, accounts, 3600, now);
      } else {
        accounts := List([]);
      }
    }
  }

  /** Within the hour after a successful fetch, a second call is served from the cache without a call,
      provided the provider returned a non-empty list. */
  method SubaccountsCachedForAnHour(site: Site, now: int, later: int, reply: Reply<seq<Value>>, again: Reply<seq<Value>>)
    returns (first: Value, second: Value)
    requires !Truthy(GetTransient(site.transients, SubaccountsCache, now))
    requires reply.Success? && reply.value != []
    requires now <= later <= now + 3600
    modifies site`transients, site`log
    ensures second == first == List(reply.value)
    ensures site.log == old(site.log) + [SubaccountsList]
  {
    first := GetSubaccounts(site, now, reply);
    TransientLease(old(site.transients), SubaccountsCache, List(reply.value), 3600, now, later);
    second := GetSubaccounts(site, later, again);
  }
}
