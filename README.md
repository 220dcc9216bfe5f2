# HassRestClient — a verified model of the request layer

HassRestClient is a C# client for the Home Assistant REST API. Each public
method of `ApiClient` sends one HTTP request to the hub and parses the answer.
This project models the logic the client runs around those calls:

- **Base URL normalisation** in the `ApiClient` constructor. The model follows
  the code exactly as written (see "Findings").
- **The credential header.** `x-ha-access` is added to the transport's default
  headers only when the password is neither null nor empty.
- **Endpoints.** For every endpoint, the model gives the verb, the URL
  (base URL plus a fixed segment plus an argument) and the JSON body. A body is
  the serialisation of a C# anonymous object, and null properties are dropped
  only where `NullValueHandling.Ignore` is set.
- **The `CallServiceAsync(Service, entityId, fields)` overload.** It changes the
  caller's dictionary in place.
- **The services converter.** After the generic parse, it gives every service
  the domain it is filed under and its own key as its name.

Modules:

- `Wrappers`: `Option`. `None` stands for a C# `null` reference.
- `Text`: ASCII lower-casing, ordinal prefix and suffix tests, and how C# treats a null
  string in a concatenation or in `IsNullOrEmpty`.
- `Json`: an abstract JSON value, and `SerializeObject` over an ordered list of
  named properties.
- `Models`: the record types `ServiceFieldInfo`, `Service`, `ServiceDomain` and
  `EntityState`.
- `ServiceConverter`: the back-fill, as a specification function (`BackFilled`)
  and as the loop that `ReadJson` runs.
- `ApiClient`: normalisation, headers, `Operation`/`Request`, the request
  bodies, and the class `ApiClient`. The class has the two constructors and the
  in-place call-service overload, which works on a `FieldDictionary` object.

Where the code and its surrounding descriptions disagree, the model follows the
code:

- The base URL is not normalised to `…/api/` for every spelling of a host (see
  "Findings").
- The back-fill copies the domain as it finds it. A null or empty domain is
  copied into every service, and nothing checks that it is non-empty
  (`NullDomainIsCopied`).
- The call-service URL is `base + domain + "/" + service`, with no `services/`
  segment. Because of this, a service in the domain `states` is posted to the
  update-state URL, and one in the domain `events` is posted to the fire-event
  URL (`CallServiceSharesUpdateStateUrl`, `CallServiceSharesFireEventUrl`).
- The POST endpoints do not turn HTTP error statuses into failures: they read
  the `PostAsync` response body without any status check
  (HassRestClient/ApiClient.cs:146-147, 161-162, 181-182, 215-216, 239-240,
  264-265). The GET endpoints go through `GetStringAsync` and
  `GetByteArrayAsync`, which throw on a non-success status; that exception is
  not modelled.

## Model

| member | source | states |
|---|---|---|
| `Text.Lower` | HassRestClient/ApiClient.cs:24 | Lower-casing keeps the length and lower-cases each character on its own, ASCII letters only. |
| `ApiClient.AppendApiSegment` | HassRestClient/ApiClient.cs:25-28 | The appends keep the lower-cased string as a prefix, and the result always ends in "api/". |
| `ApiClient.NormalizeBaseUrl` | HassRestClient/ApiClient.cs:24-28 | The stored base URL starts with the lower-cased input and ends in "api/". |
| `ApiClient.ApiSegmentAlwaysAppended` | HassRestClient/ApiClient.cs:25-28 | The "/api/" guard never holds. The result is the input plus "/api/" if it ended in "/", and the input plus "api/" otherwise. |
| `ApiClient.NormalizeBaseUrlShape` | HassRestClient/ApiClient.cs:24-28 | The base URL is the lower-cased input plus "/api/" or "api/". Its length is the input's length plus 5 or plus 4. |
| `ApiClient.NormalizeBaseUrlNotIdempotent` | HassRestClient/ApiClient.cs:24-28 | Normalising a normalised URL changes it again. |
| `ApiClient.BaseUrlWithoutSlash` | HassRestClient/ApiClient.cs:24-28 | "http://host" becomes "http://hostapi/". |
| `ApiClient.BaseUrlWithSlash` | HassRestClient/ApiClient.cs:24-28 | "http://host/" becomes "http://host//api/". |
| `ApiClient.BaseUrlWithApiSegment` | HassRestClient/ApiClient.cs:24-28 | "http://host/api/" becomes "http://host/api//api/". |
| `ApiClient.IntendedApiSegment` | HassRestClient/ApiClient.cs:25-28 | Corrected appends: the result keeps the input as a prefix and always ends in "/api/". |
| `ApiClient.IntendedBaseUrl` | HassRestClient/ApiClient.cs:24-28 | Corrected normalisation: it starts with the lower-cased input and ends in "/api/". |
| `ApiClient.IntendedApiSegmentKeepsApiSuffix` | HassRestClient/ApiClient.cs:27-28 | Corrected appends leave a string that already ends in "/api/" unchanged. |
| `ApiClient.IntendedApiSegmentStaysLower` | HassRestClient/ApiClient.cs:24-28 | Corrected appends add no upper-case character, so lower-casing the result changes nothing. |
| `ApiClient.IntendedBaseUrlIdempotent` | HassRestClient/ApiClient.cs:24-28 | The corrected normalisation is idempotent. |
| `ApiClient.IntendedApiSegmentOfHost` | HassRestClient/ApiClient.cs:25-28 | Corrected appends: for any string ending in neither "/" nor "/api", the string itself and the string plus "/", "/api" or "/api/" all give the string plus "/api/". |
| `ApiClient.IntendedBaseUrlSpellingsAgree` | HassRestClient/ApiClient.cs:24-28 | Corrected normalisation, for every host not ending in "/" or "/api" once lower-cased: every URL that lower-cases to the host, or to the host plus "/", "/api" or "/api/", gives the lower-cased host plus "/api/". So host and suffix may be in any letter case. |
| `ApiClient.IntendedBaseUrlMixedCase` | HassRestClient/ApiClient.cs:24-28 | Corrected: "HTTP://Host" becomes "http://host/api/". |
| `ApiClient.IntendedBaseUrlWithSlash` | HassRestClient/ApiClient.cs:24-28 | Corrected: "http://host/" becomes "http://host/api/". |
| `ApiClient.IntendedBaseUrlWithApi` | HassRestClient/ApiClient.cs:24-28 | Corrected: "http://host/api" becomes "http://host/api/". |
| `ApiClient.IntendedBaseUrlWithApiSegment` | HassRestClient/ApiClient.cs:24-28 | Corrected: "http://host/api/" stays as it is. |
| `ApiClient.IntendedBaseUrlUpperCaseApi` | HassRestClient/ApiClient.cs:24-28 | Corrected: "HTTP://Host/API/" becomes "http://host/api/". |
| `ApiClient.DefaultHeaders` | HassRestClient/ApiClient.cs:30-31 | `x-ha-access` is the only header that can be set. It is present iff the password is non-null and non-empty, and then its value is the password. |
| `ApiClient.ApiClient.constructor` | HassRestClient/ApiClient.cs:22-32 | The successive appends store `NormalizeBaseUrl(url)`. The default headers are `DefaultHeaders(password)`. |
| `ApiClient.ApiClient.WithoutPassword` | HassRestClient/ApiClient.cs:39-41 | Same base URL, and no access header. |
| `Json.OfString` | HassRestClient/ApiClient.cs:141-145 | A string serialises to JSON null iff it is null, and otherwise to itself. |
| `Json.SerializeObject` | HassRestClient/ApiClient.cs:141-263 | Under `NullValueHandling.Ignore` no member of the serialised object is null; the member set is given by `SerializeObjectSpec`. |
| `Json.SerializeObjectKeys` | HassRestClient/ApiClient.cs:230-238 | A serialised anonymous object has no member that is not one of its properties. |
| `Json.SerializeObjectMembers` | HassRestClient/ApiClient.cs:230-238 | With distinct names, a property is a member iff it is emitted (not null under Ignore), and then it holds its own value. |
| `Json.SerializeObjectSpec` | HassRestClient/ApiClient.cs:230-238 | Both facts together: exactly the emitted properties, each with its own value. |
| `Json.SerializeObjectAppend` | HassRestClient/ApiClient.cs:254-263 | One more property adds exactly that member, or nothing if it is a null that is ignored. |
| `ApiClient.UpdateStateBody` | HassRestClient/ApiClient.cs:140-145 | The body has exactly the keys `state` and `attributes`, copied from the entity with nulls kept. The entity id is not in the body. |
| `ApiClient.CallServiceBody` | HassRestClient/ApiClient.cs:177-180 | The body is the single key `serviceData`, holding the caller's data (null included). |
| `ApiClient.TemplateBody` | HassRestClient/ApiClient.cs:210-214 | The body is the single key `template`. |
| `ApiClient.AddEventForwardingBody` | HassRestClient/ApiClient.cs:230-238 | The keys are a subset of host, api_password and port. Each is present iff its argument is non-null, and then holds that value. |
| `ApiClient.DeleteEventForwardingBody` | HassRestClient/ApiClient.cs:254-263 | The same three keys under the same rule, and `_METHOD` = "DELETE" is always present. |
| `ApiClient.DeleteBodyIsAddBodyWithOverride` | HassRestClient/ApiClient.cs:254-263 | The add body never has `_METHOD`. The delete body is the add body plus `_METHOD` = "DELETE". |
| `ApiClient.RelativePath` | HassRestClient/ApiClient.cs:50-253 | Every endpoint path is non-empty. All but the call-service path open with a lower-case letter. A caller's entity id, event type or service name is the last thing in the path, and the call-service path opens with the domain. The exact segments are stated by the four path lemmas below. |
| `ApiClient.StatePathAppendsEntityId` | HassRestClient/ApiClient.cs:117 | The get-state path is "states/" followed by the entity id, with null read as "". Update-state uses the same path for the entity's id. |
| `ApiClient.CameraPathAppendsEntityId` | HassRestClient/ApiClient.cs:129 | The camera path is "camera_proxy/" followed by the entity id, with null read as "". |
| `ApiClient.EventPathAppendsEventType` | HassRestClient/ApiClient.cs:159 | The fire-event path is "events/" followed by the event type, with null read as "", which is the events listing path plus "/" and the type. |
| `ApiClient.CallServicePathIsDomainAndService` | HassRestClient/ApiClient.cs:176 | The call-service path is the domain, "/" and the service name, with no fixed segment. With both null it is "/". |
| `ApiClient.FixedPathsDistinct` | HassRestClient/ApiClient.cs:50-106 | The six reads without an argument (bootstrap, config, discovery_info, events, services, states) have pairwise different paths. |
| `ApiClient.BodyOf` | HassRestClient/ApiClient.cs:140-263 | An endpoint has a body iff it is not a read. Fire-event sends the event data as it is. Each other POST sends its own body, whose keys and values are fixed by that body's contract above: update-state, call-service, template, add and delete forwarding. |
| `ApiClient.RequestFor` | HassRestClient/ApiClient.cs:50-266 | Every URL is the base followed by the endpoint's own path. Reads are GETs with no body, and every other endpoint is a POST carrying that endpoint's body. |
| `ApiClient.CallServiceSharesUpdateStateUrl` | HassRestClient/ApiClient.cs:176 | A call to a service of domain "states" posts to the update-state URL of the same id. |
| `ApiClient.CallServiceSharesFireEventUrl` | HassRestClient/ApiClient.cs:176 | A call to a service of domain "events" posts to the fire-event URL of the same type. |
| `ApiClient.StateUrlDeterminesEntity` | HassRestClient/ApiClient.cs:117 | Two get-state URLs of one client are equal only for the same entity id (null read as ""). |
| `ApiClient.CallServiceLightExample` | HassRestClient/ApiClient.cs:174-184 | `light`/`turn_on` with `{entity_id: light.kitchen}` posts to base + "light/turn_on" with body `{serviceData: {entity_id: light.kitchen}}`. |
| `ApiClient.WithEntityId` | HassRestClient/ApiClient.cs:198-199 | Existing keys are kept with their values, so an `entity_id` is never overwritten. Only `entity_id` can be added, and it is present iff it was there before or the id is non-null and non-empty. When added, its value is the id. |
| `ApiClient.WithEntityIdIdempotent` | HassRestClient/ApiClient.cs:198-199 | A second insertion of the same id changes nothing. |
| `ApiClient.ApiClient.CallServiceOnEntity` | HassRestClient/ApiClient.cs:195-201 | The caller's fields become `WithEntityId` of their old value, in place. The request is the call-service request for the record's domain and service name, with the updated fields. |
| `ServiceConverter.BackFilled` | HassRestClient/ServiceConverter.cs:17-26 | The domain name and the key set are kept. Every service gets the enclosing domain (copied as is) and its own key as name, and keeps its description and fields. A domain without services is returned unchanged. |
| `ServiceConverter.ReadJson` | HassRestClient/ServiceConverter.cs:15-27 | The loop over the services map, one key at a time, yields exactly `BackFilled(parsed)`. |
| `ServiceConverter.BackFilledIdempotent` | HassRestClient/ServiceConverter.cs:20-24 | Back-filling twice gives the same result as back-filling once. |
| `ServiceConverter.BackFilledUnique` | HassRestClient/ServiceConverter.cs:20-24 | Any domain that meets the back-fill's frame and its two assignments is the back-filled domain. |
| `ServiceConverter.NullDomainIsCopied` | HassRestClient/ServiceConverter.cs:22 | A null domain is copied into the services. Nothing enforces a non-empty domain. |
| `ServiceConverter.LightTurnOnFixture` | HassRestClient/ServiceConverter.cs:17-26 | The decoded `light`/`turn_on` domain gives one service with domain "light", name "turn_on" and description "d". |

## Findings

| source | as written | input that shows it | evidently intended | confidence | as-written member | corrected member |
|---|---|---|---|---|---|---|
| HassRestClient/ApiClient.cs:25 | `if (_hassUrl.EndsWith("/")) _hassUrl += "/";` doubles a trailing slash and adds none when one is missing. The "/api/" guard on line 27 can then never hold. | `"http://host"` gives `"http://hostapi/"`. `"http://host/api/"` gives `"http://host/api//api/"`. | Append "/" only when it is missing. Every spelling of a host (with or without "/", "/api" or "/api/", host and suffix in any letter case) then gives the lower-cased host plus "/api/" (`IntendedBaseUrlSpellingsAgree`), and normalisation is idempotent. | high; not executed | `ApiClient.BaseUrlWithoutSlash` | `ApiClient.IntendedBaseUrl` |

The client class keeps the as-written normalisation, because that is the URL
the shipped code sends requests to. The corrected definition and its proofs
(`IntendedBaseUrlSpellingsAgree`, `IntendedBaseUrlIdempotent` and the
`IntendedBaseUrl…` examples) stand beside it.

## Left out

- HTTP transport, async/`Task` plumbing and `Dispose` are not modelled. Each
  endpoint is modelled by the one `Request` it sends. Responses, status codes
  and transport failures are not modelled.
- Response parsing with `JsonConvert.DeserializeObject` is not modelled, so
  `Bootstrap`, `Config`, `DiscoveryInfo`, `Event` and `MessageResponse` are not
  declared. Nor are the unused `UnitSystem` and `TemperatureUnit` enums. The
  back-fill starts from an already decoded `ServiceDomain`.
- The converter runs on every `ServiceDomain` in `GetServicesAsync` and
  `GetBootstrapAsync` (HassRestClient/ApiClient.cs:52, 96). A JSON null element
  in the services array, which would make `ReadJson` throw, is not modelled.
  Neither is `ServiceConverter.Create` (reflection).
- ServiceConverter.ReadJson: the loop updates a map of `Service` values, not
  shared `Service` objects in place. If one object sat under two keys, the C#
  code would leave it with whichever key came last; the model gives each key its
  own copy. The parser creates one object per entry, so this does not arise.
- `ToLower` is modelled for ASCII letters only. Culture-specific case mappings
  are not modelled.
- `EndsWith(string)` in the constructor (HassRestClient/ApiClient.cs:25, 27)
  compares under the current culture. The model uses ordinal (character by
  character) suffix tests instead. Culture-sensitive comparison rules, which
  can ignore or equate some characters, are not modelled.
- ServiceConverter.ReadJson: a services map whose value is JSON null (for example
  `{"domain":"light","services":{"turn_on":null}}`) makes
  HassRestClient/ServiceConverter.cs:22 dereference null and throw. The model
  types the values of `services` as non-null `Service`, so that input and its
  exception are not represented.
- ApiClient.DefaultHeaders: `HttpHeaders.Add` at HassRestClient/ApiClient.cs:31
  validates the value and throws `FormatException` on one it rejects, for
  example a password containing a new-line. The model accepts every non-empty
  password, so that exception from the constructor is not modelled.
- ApiClient.WithEntityId: `fields.ContainsKey("entity_id")` at
  HassRestClient/ApiClient.cs:198 uses the comparer the caller built the
  dictionary with. The model's map compares keys ordinally (the default
  comparer), so a case-insensitive dictionary that already holds "Entity_Id"
  gets an added "entity_id" in the model but not in C#.
- `Service.fields` may hold a JSON null value for a field in C#. The model
  types those values as non-null `ServiceFieldInfo`. The back-fill only copies
  them, so no modelled property depends on this.
- Null `hassUrl`, null `fields`, null `service` and a null entity passed to
  `UpdateStateAsync` all throw in C#. The model takes these arguments as
  non-null. Null strings inside them are modelled, and read as "" in URLs.
- JSON bodies are maps, so the order of members on the wire is not modelled.
- JSON numbers are exact rationals (`real`). Floating-point rounding and the
  distinction between integer and floating-point numbers in the serialiser are
  not modelled.
- `EntityState.LastChanged` and `LastUpdated` are opaque `Timestamp` values.
- `RunTemplate` and `GetCameraPictureAsync` return the response as it arrives.
  `FireEventAsync` serialises an arbitrary object, modelled as a JSON value sent
  as is. Only their requests are modelled.
