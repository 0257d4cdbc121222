# RIDBInterface: a Dafny model of the RIDB client core

RIDBInterface is a Swift client for the Recreation Information Database
(RIDB) REST API. Its core is `RIDBManager`. The manager builds GET requests
under the fixed root `https://ridb.recreation.gov/api/v1/`, accepts or drops
the HTTP response, and decodes the JSON body. The body is an envelope whose
records sit under the key "RECDATA". The manager keeps two facility
collections: every facility ever fetched, and the facilities of the latest
nearby query.

The model has three modules:

- `Wrappers` (`wrappers.dfy`): `Option`, which stands for Swift's optional.
- `RidbApi` (`ridb_api.dfy`) models `RIDBAPIStrings.swift`. It holds the
  base URL, the 22-case `Entities` table with its raw values, the
  `Entities(rawValue:)` initialiser Swift synthesises, and the one-entry
  API-key header.
- `RidbManager` (`ridb_manager.dfy`) models `RIDBManager.swift`. It holds
  URL and parameter composition, the `performGET` acceptance guard, the
  generic `decodeRIDJson`, the `getActivity` completion, and the class
  `Manager`. `Manager` has the three `seq` fields of the Swift class. Its
  methods update them in place: `OnNearbyResponse` is the completion closure
  of `fetchNearbyFacilities`, and `BuildDisplayList` is its `forEach` loop.

Things the code cannot do itself enter the model as parameters:

- `transport: Request -> HttpResponse` is the server's answer to a request.
  A response is an optional status code and an optional body.
- `decoder: Bytes -> DecodeOutcome<T>` is `JSONDecoder().decode`. It either
  produces a value or throws one of Swift's `DecodingError` cases.
- `project: Facility -> D` is `RootspaceDisplayItem(facility:)`.

`Manager` has a ghost field `fetchHistory` that lists every successful
nearby fetch. Its invariant `Valid()` says:

- `activityList` is empty;
- `facilityList` is the concatenation of `fetchHistory`;
- `nearbyFacilityList` is empty or equal to the latest fetch.

So the nearby list is always a suffix of the all-known list, and every
fetched facility stays known. Nothing is deduplicated: a facility fetched
twice appears twice.

The nearby request always sends exactly `full = "true"`, `latitude` and
`longitude`. The `radius`, `getFullResults`, `limit` and `offset` arguments
are accepted and have no effect. The model keeps this
(`NearbyRequestIgnoresOptions`).

On one point the model follows the code exactly as written:

- `performGET` only checks that a body is present. An empty body with a 2xx
  status is still handed on.

Two parts of the code do not compile. In these the model follows their
evident intent, not the text:

- `apikeyHeader` refers to an identifier `apikey` that is not declared. The
  evident intent is the stored key `myAPIKey`, and that is what
  `ApiKeyHeader` uses.
- The static singleton setup (`RIDBManager.swift:14-21`) does not compile.
  The model has an ordinary constructor that takes the configuration.

## Model

| member | source | states |
|---|---|---|
| `RidbApi.BaseURLEndsWithSlash` | Sources/RIDBInterface/RIDBAPIStrings.swift:14 | the base URL is exactly "https://ridb.recreation.gov/api/v1/" and ends with '/' |
| `RidbApi.RawValue` | Sources/RIDBInterface/RIDBAPIStrings.swift:15-38 | every entity's raw value is its case name: non-empty, all lower-case ASCII letters |
| `RidbApi.RawValueRoundTrip` | Sources/RIDBInterface/RIDBAPIStrings.swift:15-38 | `Entities(rawValue: s)` yields `e` if and only if `s` is `e`'s raw value |
| `RidbApi.RawValueInjective` | Sources/RIDBInterface/RIDBAPIStrings.swift:15-38 | the 22 raw values are pairwise distinct, so an entity is determined by its path segment |
| `RidbApi.RawValueHasNoSlash` | Sources/RIDBInterface/RIDBAPIStrings.swift:15-38 | no raw value contains '/' |
| `RidbApi.ApiKeyHeader` | Sources/RIDBInterface/RIDBAPIStrings.swift:11-13 | the header map has exactly one key, "apikey", whose value is the configured key |
| `RidbManager.InterpolateRoundTrip` | Sources/RIDBInterface/RIDBManager.swift:69 | the decimal text of the activity id reads back as that id, negatives included |
| `RidbManager.ItemURLRoundTrip` | Sources/RIDBInterface/RIDBManager.swift:69 | `BaseURL + rawValue + "/" + id` is the base URL followed by exactly two segments, the raw value and the id, and both read back |
| `RidbManager.ItemURLInjective` | Sources/RIDBInterface/RIDBManager.swift:69 | distinct (entity, id) pairs give distinct item URLs |
| `RidbManager.CollectionURLRoundTrip` | Sources/RIDBInterface/RIDBManager.swift:102 | `BaseURL + rawValue` is the base URL followed by exactly one segment, which names the entity |
| `RidbManager.ItemURLParses` | Sources/RIDBInterface/RIDBManager.swift:69-72 | every item URL passes `URL(string:)`, so the "URL Error" early return of `getActivity` never happens |
| `RidbManager.CollectionURLParses` | Sources/RIDBInterface/RIDBManager.swift:102-105 | every collection URL passes `URL(string:)`, so the "URL Error" early return of `fetchNearbyFacilities` never happens |
| `RidbManager.RequestsAreAlwaysBuilt` | Sources/RIDBInterface/RIDBManager.swift:69-105 | the activity request (guard at lines 69-72) and the nearby request (guard at lines 102-105) are always built |
| `RidbManager.ActivityRequest` | Sources/RIDBInterface/RIDBManager.swift:69-73 | the activity request is built exactly when its URL parses; its URL is exactly `BaseURL + "activities" + "/"` followed by the decimal id, and it names the activities resource and the given id; it has no parameters and carries the API-key header |
| `RidbManager.NearbyRequest` | Sources/RIDBInterface/RIDBManager.swift:102-109 | the nearby request's URL is exactly `BaseURL + "facilities"` and names the facilities resource; its parameters are exactly full = "true", latitude and longitude; it carries the API-key header |
| `RidbManager.NearbyRequestIgnoresOptions` | Sources/RIDBInterface/RIDBManager.swift:101-108 | radius, getFullResults, limit and offset have no effect on the nearby request |
| `RidbManager.AcceptedBody` | Sources/RIDBInterface/RIDBManager.swift:42-50 | the body is handed on if and only if a status code is present, lies in 200...299, and a body is present; the body handed on is the response's |
| `RidbManager.DecodeRIDJson` | Sources/RIDBInterface/RIDBManager.swift:29-36 | returns none exactly when decoding throws, and the decoded value otherwise; no error escapes |
| `RidbManager.ActivityCompletion` | Sources/RIDBInterface/RIDBManager.swift:73-80 | the completion is called exactly when the response is accepted and decodes; it receives the envelope's first activity, or none when the envelope is empty |
| `RidbManager.BuildDisplayList` | Sources/RIDBInterface/RIDBManager.swift:121-124 | the display list has one item per fetched facility, in order, and item i is the projection of facility i |
| `RidbManager.FlattenContains` | Sources/RIDBInterface/RIDBManager.swift:120 | appending every fetch to the all-known list keeps every facility of every fetch in it |
| `RidbManager.Manager.constructor` | Sources/RIDBInterface/RIDBManager.swift:23-27 | all three lists start empty and the invariant holds |
| `RidbManager.Manager.GetActivities` | Sources/RIDBInterface/RIDBManager.swift:64-66 | `getActivities()` always returns the empty list, since no handler writes `activityList` |
| `RidbManager.Manager.AllFacilities` | Sources/RIDBInterface/RIDBManager.swift:93-95 | `allFacilities` contains every facility of every successful nearby fetch |
| `RidbManager.Manager.NearbyFacilities` | Sources/RIDBInterface/RIDBManager.swift:97-99 | `nearbyFacilities` is empty or exactly the latest fetch, and always a suffix of `allFacilities` |
| `RidbManager.Manager.OnNearbyResponse` | Sources/RIDBInterface/RIDBManager.swift:109-126 | on a decode failure the nearby list is empty, the all-known list is unchanged and the completion is not called; on success the nearby list equals the fetched list, the all-known list becomes old ++ fetched, and the completion gets the projected list |
| `RidbManager.Manager.FetchNearbyFacilities` | Sources/RIDBInterface/RIDBManager.swift:101-127 | sends `NearbyRequest`; when the response is not accepted nothing changes and the completion is not called, otherwise the response is handled as by `OnNearbyResponse` |
| `RidbManager.Manager.GetActivity` | Sources/RIDBInterface/RIDBManager.swift:68-81 | sends `ActivityRequest` and delivers `ActivityCompletion` of the response; writes no field |
| `RidbManager.FlattenPrefix` | Sources/RIDBInterface/RIDBManager.swift:120 | extending the list of fetches only extends the all-known list: the earlier one is a prefix of the later one |
| `RidbManager.KnownFacilitiesOnlyGrow` | Sources/RIDBInterface/RIDBManager.swift:118-120 | between two valid manager states whose fetch history has only grown, the earlier `allFacilities` is a prefix of the later one |

## Left out

- Alamofire's request, `validate()` and response dispatch are network I/O through a foreign library. Only the guard on status code and body is modelled. The response enters as the `transport` parameter.
- `JSONDecoder` and the `Codable`/`CodingKeys` mapping of "RECDATA" are a foreign library. They are the `decoder` parameter, and its outcome is a value or a `DecodingError`.
- `RIDBEntities.swift` is a passive record schema. `Activity` and `Facility` keep only their identifier fields.
- `String(latitude)` and `String(longitude)` turn floating point into text. The coordinates enter as strings.
- `RootspaceDisplayItem(facility:)` is not part of this model. It is the `project` parameter.
- `URL(string:)` is Foundation code. The model approximates it with a permissive check: the string is non-empty and uses only characters RFC 3986 allows in a URL. It does not model the full URL grammar.
- The static singleton and `init` wiring (`RIDBManager.swift:14-21`) is left out because it does not compile. The API key is a fixed `ApiConfig` value given to the constructor.
- The `print` logging is left out, including the line that shows the status code, or -1 when there is none.
- Asynchronous completion dispatch and the unsynchronised writes to the two lists are left out. Each response is handled as one sequential step.
- `Package.swift` is build configuration only.
