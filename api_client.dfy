/**
 * The request side of the REST client: how the base URL is normalised once at
 * construction, which credential header is attached, and, for every endpoint,
 * the verb, the URL and the JSON body of the one request it sends.
 */
module ApiClient {
  import opened Wrappers
  import opened Text
  import opened Json
  import opened Models

  // ---------------------------------------------------------------------------
  // Base URL

  /**
   * The appends that follow the lower-casing, exactly as written: add "/" if
   * the string ALREADY ends in "/", then add "api/" unless it ends in "/api/".
   */
  function AppendApiSegment(lowered: string): (r: string)
    ensures StartsWith(r, lowered)
    ensures EndsWith(r, "api/")
  {
    var slashed := if EndsWith(lowered, "/") then lowered + "/" else lowered;
    if EndsWith(slashed, "/api/") then slashed else slashed + "api/"
  }

  /** The base URL the constructor stores: the lower-cased input with the appends above. */
  function NormalizeBaseUrl(url: string): (r: string)
    ensures StartsWith(r, Lower(url))
    ensures EndsWith(r, "api/")
  {
    AppendApiSegment(Lower(url))
  }

  /**
   * The "/api/" guard never holds where it is tested: after the first append
   * the string ends in "//" or does not end in "/" at all. So "api/" is always
   * appended, after a doubled slash when the input ended in one.
   */
  lemma {:induction false} ApiSegmentAlwaysAppended(lowered: string)
    ensures AppendApiSegment(lowered) == lowered + (if EndsWith(lowered, "/") then "/api/" else "api/")
  {
    if EndsWith(lowered, "/") {
      var slashed := lowered + "/";
      assert slashed[|slashed| - 2] == '/';
      if |slashed| >= 5 {
        assert slashed[|slashed| - 5..][3] == slashed[|slashed| - 2];
      }
      assert slashed + "api/" == lowered + "/api/";
    } else if |lowered| >= 5 {
      assert lowered[|lowered| - 1..] == [lowered[|lowered| - 1]];
      assert lowered[|lowered| - 5..][4] == lowered[|lowered| - 1];
    }
  }

  /** The normalised URL is the lower-cased input plus five characters if it ended in "/", four otherwise. */
  lemma NormalizeBaseUrlShape(url: string)
    ensures NormalizeBaseUrl(url) == Lower(url) + (if EndsWith(Lower(url), "/") then "/api/" else "api/")
    ensures |NormalizeBaseUrl(url)| == |url| + (if EndsWith(Lower(url), "/") then 5 else 4)
  {
    ApiSegmentAlwaysAppended(Lower(url));
  }

  /** Normalising an already normalised URL changes it again: the operation is not idempotent. */
  lemma NormalizeBaseUrlNotIdempotent(url: string)
    ensures NormalizeBaseUrl(NormalizeBaseUrl(url)) != NormalizeBaseUrl(url)
  {
    NormalizeBaseUrlShape(NormalizeBaseUrl(url));
  }

  // Three spellings of one host give three different base URLs, none of them
  // "http://host/api/".

  lemma BaseUrlWithoutSlash()
    ensures NormalizeBaseUrl("http://host") == "http://hostapi/"
  {
    ExampleHost();
    ApiSegmentAlwaysAppended("http://host");
    assert "http://host" + "api/" == "http://hostapi/";
  }

  lemma BaseUrlWithSlash()
    ensures NormalizeBaseUrl("http://host/") == "http://host//api/"
  {
    LowerOfNoUpper("http://host/");
    assert EndsWith("http://host/", "/");
    ApiSegmentAlwaysAppended("http://host/");
    assert "http://host/" + "/api/" == "http://host//api/";
  }

  lemma BaseUrlWithApiSegment()
    ensures NormalizeBaseUrl("http://host/api/") == "http://host/api//api/"
  {
    LowerOfNoUpper("http://host/api/");
    assert EndsWith("http://host/api/", "/");
    ApiSegmentAlwaysAppended("http://host/api/");
    assert "http://host/api/" + "/api/" == "http://host/api//api/";
  }

  /**
   * The appends the guard on "/api/" evidently aims at: add "/" when it is
   * MISSING, then "api/" unless the string already ends in "/api/".
   */
  function IntendedApiSegment(lowered: string): (r: string)
    ensures StartsWith(r, lowered)
    ensures EndsWith(r, "/api/")
  {
    var slashed := if EndsWith(lowered, "/") then lowered else lowered + "/";
    assert slashed[|slashed| - 1] == '/';
    if EndsWith(slashed, "/api/") then slashed else slashed + "api/"
  }

  /** The intended normalisation: lower-case, then the intended appends. */
  function IntendedBaseUrl(url: string): (r: string)
    ensures StartsWith(r, Lower(url))
    ensures EndsWith(r, "/api/")
  {
    IntendedApiSegment(Lower(url))
  }

  /** The intended appends leave a string that already ends in "/api/" alone... */
  lemma IntendedApiSegmentKeepsApiSuffix(lowered: string)
    requires EndsWith(lowered, "/api/")
    ensures IntendedApiSegment(lowered) == lowered
  {
    assert lowered[|lowered| - 1..] == lowered[|lowered| - 5..][4..];
  }

  /** ...and add only ASCII lower-case characters, so lower-casing the result changes nothing. */
  lemma {:induction false} IntendedApiSegmentStaysLower(lowered: string)
    requires Lower(lowered) == lowered
    ensures Lower(IntendedApiSegment(lowered)) == IntendedApiSegment(lowered)
  {
    var slashed := if EndsWith(lowered, "/") then lowered else lowered + "/";
    assert Lower(slashed) == slashed by {
      if !EndsWith(lowered, "/") {
        LowerOfNoUpper("/");
        LowerAppend(lowered, "/");
      }
    }
    if !EndsWith(slashed, "/api/") {
      LowerOfNoUpper("api/");
      LowerAppend(slashed, "api/");
    }
  }

  /** The intended normalisation is idempotent. */
  lemma IntendedBaseUrlIdempotent(url: string)
    ensures IntendedBaseUrl(IntendedBaseUrl(url)) == IntendedBaseUrl(url)
  {
    LowerIdempotent(url);
    IntendedApiSegmentStaysLower(Lower(url));
    IntendedApiSegmentKeepsApiSuffix(IntendedBaseUrl(url));
  }

  /**
   * The intended appends give one result for the four spellings of a host
   * that ends in neither "/" nor "/api".
   */
  lemma {:induction false} IntendedApiSegmentOfHost(h: string)
    requires !EndsWith(h, "/") && !EndsWith(h, "/api")
    ensures IntendedApiSegment(h) == h + "/api/"
    ensures IntendedApiSegment(h + "/") == h + "/api/"
    ensures IntendedApiSegment(h + "/api") == h + "/api/"
    ensures IntendedApiSegment(h + "/api/") == h + "/api/"
  {
    var s := h + "/";
    assert EndsWith(s, "/");
    if |s| >= 5 {
      assert s[|s| - 5..][..4] == h[|h| - 4..];
    }
    assert !EndsWith(s, "/api/");
    assert s + "api/" == h + "/api/";
    var a := h + "/api";
    assert a[|a| - 1] == 'i';
    assert !EndsWith(a, "/");
    assert a + "/" == h + "/api/";
    assert EndsWith(h + "/api/", "/api/");
    IntendedApiSegmentKeepsApiSuffix(h + "/api/");
  }

  /**
   * Under the intended normalisation the spellings of any host agree: with or
   * without a trailing "/", "/api" or "/api/", host and suffix alike in any
   * letter case, the base URL is the lower-cased host followed by "/api/".
   */
  lemma {:induction false} IntendedBaseUrlSpellingsAgree(h: string)
    requires !EndsWith(Lower(h), "/") && !EndsWith(Lower(h), "/api")
    ensures forall u ::
      Lower(u) == Lower(h) || Lower(u) == Lower(h) + "/" ||
      Lower(u) == Lower(h) + "/api" || Lower(u) == Lower(h) + "/api/"
      ==> IntendedBaseUrl(u) == Lower(h) + "/api/"
    ensures IntendedBaseUrl(h) == Lower(h) + "/api/"
    ensures IntendedBaseUrl(h + "/") == Lower(h) + "/api/"
    ensures IntendedBaseUrl(h + "/api") == Lower(h) + "/api/"
    ensures IntendedBaseUrl(h + "/api/") == Lower(h) + "/api/"
  {
    LowerOfNoUpper("/");
    LowerOfNoUpper("/api");
    LowerOfNoUpper("/api/");
    LowerAppend(h, "/");
    LowerAppend(h, "/api");
    LowerAppend(h, "/api/");
    IntendedApiSegmentOfHost(Lower(h));
  }

  // The same for one concrete host.

  /** Facts about the literal host the examples use. */
  lemma ExampleHost()
    ensures Lower("http://host") == "http://host"
    ensures !EndsWith("http://host", "/") && !EndsWith("http://host", "/api")
  {
    LowerOfNoUpper("http://host");
  }

  lemma MixedCaseHost()
    ensures Lower("HTTP://Host") == "http://host"
  {
    assert LowerChar('H') == 'h' && LowerChar('T') == 't' && LowerChar('P') == 'p';
  }

  lemma IntendedBaseUrlMixedCase()
    ensures IntendedBaseUrl("HTTP://Host") == "http://host/api/"
  {
    MixedCaseHost();
    ExampleHost();
    IntendedApiSegmentOfHost("http://host");
    assert "http://host" + "/api/" == "http://host/api/";
  }

  lemma IntendedBaseUrlWithSlash()
    ensures IntendedBaseUrl("http://host/") == "http://host/api/"
  {
    LowerOfNoUpper("http://host/");
    ExampleHost();
    IntendedApiSegmentOfHost("http://host");
    assert "http://host" + "/" == "http://host/";
    assert "http://host" + "/api/" == "http://host/api/";
  }

  lemma IntendedBaseUrlWithApi()
    ensures IntendedBaseUrl("http://host/api") == "http://host/api/"
  {
    LowerOfNoUpper("http://host/api");
    ExampleHost();
    IntendedApiSegmentOfHost("http://host");
    assert "http://host" + "/api" == "http://host/api";
    assert "http://host" + "/api/" == "http://host/api/";
  }

  lemma IntendedBaseUrlWithApiSegment()
    ensures IntendedBaseUrl("http://host/api/") == "http://host/api/"
  {
    LowerOfNoUpper("http://host/api/");
    IntendedApiSegmentKeepsApiSuffix("http://host/api/");
  }

  lemma IntendedBaseUrlUpperCaseApi()
    ensures IntendedBaseUrl("HTTP://Host/API/") == "http://host/api/"
  {
    MixedCaseHost();
    assert Lower("/API/") == "/api/" by {
      assert LowerChar('A') == 'a' && LowerChar('P') == 'p' && LowerChar('I') == 'i';
    }
    LowerAppend("HTTP://Host", "/API/");
    assert "HTTP://Host" + "/API/" == "HTTP://Host/API/";
    assert "http://host" + "/api/" == "http://host/api/";
    IntendedApiSegmentKeepsApiSuffix("http://host/api/");
  }

  // ---------------------------------------------------------------------------
  // Credential header

  const AccessHeader: string := "x-ha-access"

  /** The default headers of the transport: the access header, only for a non-null, non-empty password. */
  function DefaultHeaders(password: Option<string>): (h: map<string, string>)
    ensures h.Keys <= {AccessHeader}
    ensures AccessHeader in h <==> !IsNullOrEmpty(password)
    ensures AccessHeader in h ==> h[AccessHeader] == password.value
  {
    if IsNullOrEmpty(password) then map[] else map[AccessHeader := password.value]
  }

  // ---------------------------------------------------------------------------
  // Endpoints

  /** A C# `int?` port: 32-bit when present. */
  newtype Int32 = x: int | -0x8000_0000 <= x < 0x8000_0000

  datatype Verb = Get | Post

  /** The one HTTP request an endpoint sends; `body` is the serialised JSON, absent for a GET. */
  datatype Request = Request(verb: Verb, url: string, body: Option<Json>)

  /** Every public endpoint of the client, with the arguments that reach the wire. */
  datatype Operation =
    | GetBootstrap
    | GetConfig
    | GetDiscoveryInfo
    | GetEvents
    | GetServices
    | GetStates
    | GetState(entityId: Option<string>)
    | GetCameraPicture(entityId: Option<string>)
    | UpdateState(entity: EntityState)
    | FireEvent(eventType: Option<string>, eventData: Json)
    | CallService(domain: Option<string>, service: Option<string>, serviceData: Json)
    | RunTemplate(template: Option<string>)
    | AddEventForwarding(host: Option<string>, apiPassword: Option<string>, port: Option<Int32>)
    | DeleteEventForwarding(host: Option<string>, apiPassword: Option<string>, port: Option<Int32>)

  predicate IsRead(op: Operation) {
    op.GetBootstrap? || op.GetConfig? || op.GetDiscoveryInfo? || op.GetEvents? ||
    op.GetServices? || op.GetStates? || op.GetState? || op.GetCameraPicture?
  }

  /**
   * The path after the base URL; a null argument contributes nothing, as in C#
   * concatenation. Every path but the call-service one opens with a fixed
   * lower-case segment, and a caller's argument is always the last thing in it.
   */
  function RelativePath(op: Operation): (r: string)
    ensures r != ""
    ensures !op.CallService? ==> 'a' <= r[0] <= 'z'
    ensures op.GetState? || op.GetCameraPicture? ==> EndsWith(r, OrEmpty(op.entityId))
    ensures op.UpdateState? ==> EndsWith(r, OrEmpty(op.entity.entityId))
    ensures op.FireEvent? ==> EndsWith(r, OrEmpty(op.eventType))
    ensures op.CallService? ==> StartsWith(r, OrEmpty(op.domain)) && EndsWith(r, OrEmpty(op.service))
  {
    match op
    case GetBootstrap => "bootstrap"
    case GetConfig => "config"
    case GetDiscoveryInfo => "discovery_info"
    case GetEvents => "events"
    case GetServices => "services"
    case GetStates => "states"
    case GetState(entityId) => "states/" + OrEmpty(entityId)
    case GetCameraPicture(entityId) => "camera_proxy/" + OrEmpty(entityId)
    case UpdateState(entity) => "states/" + OrEmpty(entity.entityId)
    case FireEvent(eventType, _) => "events/" + OrEmpty(eventType)
    case CallService(domain, service, _) => OrEmpty(domain) + "/" + OrEmpty(service)
    case RunTemplate(_) => "template"
    case AddEventForwarding(_, _, _) => "event_forwarding"
    case DeleteEventForwarding(_, _, _) => "event_forwarding"
  }

  // Each endpoint with an argument appends it, null read as "", to the path it
  // has with a null argument: a fixed segment ending in "/".

  lemma StatePathAppendsEntityId(a: Option<string>, entity: EntityState)
    ensures RelativePath(GetState(None)) == "states/"
    ensures RelativePath(GetState(a)) == RelativePath(GetState(None)) + OrEmpty(a)
    ensures RelativePath(UpdateState(entity)) == RelativePath(GetState(entity.entityId))
  {
  }

  lemma CameraPathAppendsEntityId(a: Option<string>)
    ensures RelativePath(GetCameraPicture(None)) == "camera_proxy/"
    ensures RelativePath(GetCameraPicture(a)) == RelativePath(GetCameraPicture(None)) + OrEmpty(a)
  {
  }

  /** The fire-event path is the events listing path, "/" and the event type. */
  lemma EventPathAppendsEventType(a: Option<string>, data: Json)
    ensures RelativePath(FireEvent(None, data)) == "events/"
    ensures RelativePath(FireEvent(a, data)) == RelativePath(FireEvent(None, data)) + OrEmpty(a)
    ensures RelativePath(FireEvent(a, data)) == RelativePath(GetEvents) + "/" + OrEmpty(a)
  {
    assert "events" + "/" == "events/";
  }

  /** The call-service path is the domain, "/" and the service name, with no fixed segment. */
  lemma CallServicePathIsDomainAndService(d: Option<string>, service: Option<string>, data: Json)
    ensures RelativePath(CallService(d, service, data)) == OrEmpty(d) + "/" + OrEmpty(service)
    ensures RelativePath(CallService(None, None, data)) == "/"
  {
  }

  /** The paths of the endpoints without an argument are pairwise distinct. */
  lemma FixedPathsDistinct(op1: Operation, op2: Operation)
    requires IsRead(op1) && IsRead(op2) && !op1.GetState? && !op2.GetState?
    requires !op1.GetCameraPicture? && !op2.GetCameraPicture?
    requires RelativePath(op1) == RelativePath(op2)
    ensures op1 == op2
  {
  }

  /** A nullable attribute dictionary as JSON. */
  function OfAttributes(attributes: Option<map<string, Json>>): Json {
    match attributes
    case None => JNull
    case Some(m) => JObject(m)
  }

  function OfPort(port: Option<Int32>): Json {
    match port
    case None => JNull
    case Some(p) => JNumber((p as int) as real)
  }

  /**
   * The update-state body: the entity's state and attributes and nothing else;
   * in particular the entity id travels only in the URL. Nulls are written out.
   */
  function UpdateStateBody(entity: EntityState): (body: map<string, Json>)
    ensures body.Keys == {"state", "attributes"}
    ensures body["state"] == OfString(entity.state)
    ensures body["attributes"] == OfAttributes(entity.attributes)
  {
    var props := [("state", OfString(entity.state)), ("attributes", OfAttributes(entity.attributes))];
    assert Names(props) == {"state", "attributes"} by {
      assert props[0].0 == "state" && props[1].0 == "attributes";
    }
    SerializeObjectSpec(props, false);
    SerializeObject(props, false)
  }

  /** The call-service body wraps the caller's data under the one key "serviceData", null included. */
  function CallServiceBody(serviceData: Json): (body: map<string, Json>)
    ensures body.Keys == {"serviceData"}
    ensures body["serviceData"] == serviceData
  {
    var props := [("serviceData", serviceData)];
    assert Names(props) == {"serviceData"} by {
      assert props[0].0 == "serviceData";
    }
    SerializeObjectSpec(props, false);
    SerializeObject(props, false)
  }

  function TemplateBody(template: Option<string>): (body: map<string, Json>)
    ensures body.Keys == {"template"}
    ensures body["template"] == OfString(template)
  {
    var props := [("template", OfString(template))];
    assert Names(props) == {"template"} by {
      assert props[0].0 == "template";
    }
    SerializeObjectSpec(props, false);
    SerializeObject(props, false)
  }

  function ForwardingProperties(host: Option<string>, apiPassword: Option<string>, port: Option<Int32>): seq<Property> {
    [("host", OfString(host)), ("api_password", OfString(apiPassword)), ("port", OfPort(port))]
  }

  /** The add-forwarding body: each of host, password and port appears exactly when it is not null. */
  function AddEventForwardingBody(host: Option<string>, apiPassword: Option<string>, port: Option<Int32>): (body: map<string, Json>)
    ensures body.Keys <= {"host", "api_password", "port"}
    ensures "host" in body <==> host.Some?
    ensures "api_password" in body <==> apiPassword.Some?
    ensures "port" in body <==> port.Some?
    ensures host.Some? ==> body["host"] == JString(host.value)
    ensures apiPassword.Some? ==> body["api_password"] == JString(apiPassword.value)
    ensures port.Some? ==> body["port"] == JNumber((port.value as int) as real)
  {
    var props := ForwardingProperties(host, apiPassword, port);
    assert Names(props) == {"host", "api_password", "port"} by {
      assert props[0].0 == "host" && props[1].0 == "api_password" && props[2].0 == "port";
    }
    SerializeObjectSpec(props, true);
    SerializeObject(props, true)
  }

  /**
   * The delete-forwarding body: the same non-null fields, plus the override
   * "_METHOD": "DELETE" that tells the hub to delete.
   */
  function DeleteEventForwardingBody(host: Option<string>, apiPassword: Option<string>, port: Option<Int32>): (body: map<string, Json>)
    ensures body.Keys <= {"host", "api_password", "port", "_METHOD"}
    ensures "host" in body <==> host.Some?
    ensures "api_password" in body <==> apiPassword.Some?
    ensures "port" in body <==> port.Some?
    ensures host.Some? ==> body["host"] == JString(host.value)
    ensures apiPassword.Some? ==> body["api_password"] == JString(apiPassword.value)
    ensures port.Some? ==> body["port"] == JNumber((port.value as int) as real)
    ensures "_METHOD" in body && body["_METHOD"] == JString("DELETE")
  {
    var props := ForwardingProperties(host, apiPassword, port) + [("_METHOD", JString("DELETE"))];
    assert Names(props) == {"host", "api_password", "port", "_METHOD"} by {
      assert props[0].0 == "host" && props[1].0 == "api_password" && props[2].0 == "port" && props[3].0 == "_METHOD";
    }
    SerializeObjectSpec(props, true);
    SerializeObject(props, true)
  }

  /** The two forwarding bodies differ exactly in the "_METHOD" override, which the add body never carries. */
  lemma DeleteBodyIsAddBodyWithOverride(host: Option<string>, apiPassword: Option<string>, port: Option<Int32>)
    ensures "_METHOD" !in AddEventForwardingBody(host, apiPassword, port)
    ensures DeleteEventForwardingBody(host, apiPassword, port)
         == AddEventForwardingBody(host, apiPassword, port)["_METHOD" := JString("DELETE")]
  {
    SerializeObjectAppend(ForwardingProperties(host, apiPassword, port), ("_METHOD", JString("DELETE")), true);
  }

  /** The JSON body of an endpoint, or none for a GET; event data is sent as it is. */
  function BodyOf(op: Operation): (r: Option<Json>)
    ensures r.None? <==> IsRead(op)
    ensures op.FireEvent? ==> r == Some(op.eventData)
    ensures op.UpdateState? ==> r == Some(JObject(UpdateStateBody(op.entity)))
    ensures op.CallService? ==> r == Some(JObject(CallServiceBody(op.serviceData)))
    ensures op.RunTemplate? ==> r == Some(JObject(TemplateBody(op.template)))
    ensures op.AddEventForwarding? ==> r == Some(JObject(AddEventForwardingBody(op.host, op.apiPassword, op.port)))
    ensures op.DeleteEventForwarding? ==> r == Some(JObject(DeleteEventForwardingBody(op.host, op.apiPassword, op.port)))
    ensures r.Some? && !op.FireEvent? ==> r.value.JObject?
  {
    match op
    case UpdateState(entity) => Some(JObject(UpdateStateBody(entity)))
    case FireEvent(_, eventData) => Some(eventData)
    case CallService(_, _, serviceData) => Some(JObject(CallServiceBody(serviceData)))
    case RunTemplate(template) => Some(JObject(TemplateBody(template)))
    case AddEventForwarding(host, apiPassword, port) => Some(JObject(AddEventForwardingBody(host, apiPassword, port)))
    case DeleteEventForwarding(host, apiPassword, port) => Some(JObject(DeleteEventForwardingBody(host, apiPassword, port)))
    case _ => None
  }

  /**
   * The request an endpoint sends from a client whose base URL is `base`: the
   * URL is the base followed by the endpoint's path, reads are bodiless GETs
   * and everything else is a POST with a JSON body.
   */
  function RequestFor(base: string, op: Operation): (r: Request)
    ensures StartsWith(r.url, base) && r.url[|base|..] == RelativePath(op)
    ensures r.verb == Get <==> IsRead(op)
    ensures r.verb == Get <==> r.body.None?
    ensures r.body == BodyOf(op)
  {
    Request(if IsRead(op) then Get else Post, base + RelativePath(op), BodyOf(op))
  }

  /**
   * The call-service URL has no "services/" segment, so calling a service of
   * the domain "states" posts to the very URL of the update-state endpoint.
   */
  lemma CallServiceSharesUpdateStateUrl(base: string, entity: EntityState, serviceData: Json)
    ensures RequestFor(base, CallService(Some("states"), entity.entityId, serviceData)).url
         == RequestFor(base, UpdateState(entity)).url
    ensures RequestFor(base, CallService(Some("states"), entity.entityId, serviceData)).verb
         == RequestFor(base, UpdateState(entity)).verb
  {
    assert "states" + "/" + OrEmpty(entity.entityId) == "states/" + OrEmpty(entity.entityId);
  }

  /** Likewise a service of the domain "events" is posted to the fire-event URL. */
  lemma CallServiceSharesFireEventUrl(base: string, eventType: Option<string>, serviceData: Json, eventData: Json)
    ensures RequestFor(base, CallService(Some("events"), eventType, serviceData)).url
         == RequestFor(base, FireEvent(eventType, eventData)).url
    ensures RequestFor(base, CallService(Some("events"), eventType, serviceData)).verb
         == RequestFor(base, FireEvent(eventType, eventData)).verb
  {
    assert "events" + "/" + OrEmpty(eventType) == "events/" + OrEmpty(eventType);
  }

  /** Two state requests of one client go to the same URL only for the same entity id. */
  lemma {:induction false} StateUrlDeterminesEntity(base: string, a: Option<string>, b: Option<string>)
    requires RequestFor(base, GetState(a)).url == RequestFor(base, GetState(b)).url
    ensures OrEmpty(a) == OrEmpty(b)
  {
    var u := RequestFor(base, GetState(a)).url;
    var prefix := base + "states/";
    assert u == prefix + OrEmpty(a) && u == prefix + OrEmpty(b);
    assert OrEmpty(a) == u[|prefix|..];
    assert OrEmpty(b) == u[|prefix|..];
  }

  /** The request of the call-service example: POST {base}light/turn_on with the data under "serviceData". */
  lemma CallServiceLightExample(base: string)
    ensures
      var data := JObject(map["entity_id" := JString("light.kitchen")]);
      RequestFor(base, CallService(Some("light"), Some("turn_on"), data))
        == Request(Post, base + "light/turn_on", Some(JObject(map["serviceData" := data])))
  {
    var data := JObject(map["entity_id" := JString("light.kitchen")]);
    var body := CallServiceBody(data);
    assert body == map["serviceData" := data];
    assert "light" + "/" + "turn_on" == "light/turn_on";
  }

  // ---------------------------------------------------------------------------
  // The convenience call-service overload

  /**
   * The caller's fields after the overload has looked at them: "entity_id" is
   * added, with the given id, only when it is missing and the id is neither
   * null nor empty. An existing "entity_id" is never overwritten and no other
   * key changes.
   */
  function WithEntityId(fields: map<string, Json>, entityId: Option<string>): (r: map<string, Json>)
    ensures forall k :: k in fields ==> k in r && r[k] == fields[k]
    ensures forall k :: k in r && k != "entity_id" ==> k in fields
    ensures "entity_id" in r <==> "entity_id" in fields || !IsNullOrEmpty(entityId)
    ensures "entity_id" in r && "entity_id" !in fields ==> r["entity_id"] == JString(entityId.value)
  {
    if "entity_id" !in fields && !IsNullOrEmpty(entityId) then fields["entity_id" := JString(entityId.value)]
    else fields
  }

  /** A second call with the same id changes nothing more. */
  lemma WithEntityIdIdempotent(fields: map<string, Json>, entityId: Option<string>)
    ensures WithEntityId(WithEntityId(fields, entityId), entityId) == WithEntityId(fields, entityId)
  {
  }

  /** The caller's `Dictionary<string, object>`, which the overload changes in place. */
  class FieldDictionary {
    var entries: map<string, Json>

    constructor (entries: map<string, Json>)
      ensures this.entries == entries
    {
      this.entries := entries;
    }
  }

  // ---------------------------------------------------------------------------
  // The client

  /**
   * The client's configuration, fixed at construction: the normalised base URL
   * and the headers attached to every request it sends.
   */
  class ApiClient {
    const hassUrl: string
    const defaultHeaders: map<string, string>

    constructor (url: string, password: Option<string>)
      ensures hassUrl == NormalizeBaseUrl(url)
      ensures defaultHeaders == DefaultHeaders(password)
    {
      var u := Lower(url);
      if EndsWith(u, "/") {
        u := u + "/";
      }
      if !EndsWith(u, "/api/") {
        u := u + "api/";
      }
      hassUrl := u;
      var headers := map[];
      if !IsNullOrEmpty(password) {
        headers := headers[AccessHeader := password.value];
      }
      defaultHeaders := headers;
    }

    /** The one-argument constructor: no password, so no access header. */
    constructor WithoutPassword(url: string)
      ensures hassUrl == NormalizeBaseUrl(url)
      ensures defaultHeaders == map[]
    {
      hassUrl := NormalizeBaseUrl(url);
      defaultHeaders := DefaultHeaders(None);
    }

    /**
     * `CallServiceAsync(Service, entityId, fields)`: inserts the entity id into
     * the caller's fields in place, then calls the service named by the record's
     * domain and service name with those fields as its data.
     */
    method CallServiceOnEntity(service: Service, entityId: Option<string>, fields: FieldDictionary) returns (req: Request)
      modifies fields
      ensures fields.entries == WithEntityId(old(fields.entries), entityId)
      ensures req == RequestFor(hassUrl, CallService(service.domain, service.serviceName, JObject(fields.entries)))
    {
      if "entity_id" !in fields.entries && !IsNullOrEmpty(entityId) {
        fields.entries := fields.entries["entity_id" := JString(entityId.value)];
      }
      req := RequestFor(hassUrl, CallService(service.domain, service.serviceName, JObject(fields.entries)));
    }
  }
}
