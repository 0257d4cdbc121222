/**
 * The fetch/decode/accumulate manager (`RIDBManager`): request composition,
 * the acceptance rule for HTTP responses, the generic decode step, the
 * single-activity query and the nearby-facilities query with its two
 * accumulated collections.
 *
 * The HTTP transport and `JSONDecoder` are not modelled; they enter as
 * function parameters: `transport` gives the response the server sends for
 * a request, `decoder` gives the outcome of decoding a body.
 */
module RidbManager {
  import opened Wrappers
  import opened RidbApi

  // ---------------------------------------------------------------------
  // Values
  // ---------------------------------------------------------------------

  /** Foundation's `Data`. */
  type Bytes = seq<bv8>

  /** Swift's `Int` on a 64-bit platform. */
  newtype Int64 = x: int | -0x8000_0000_0000_0000 <= x < 0x8000_0000_0000_0000

  /** `RIDBEntity.Activity`, reduced to its identifier. */
  datatype Activity = Activity(activityId: Int64)

  /** `RIDBEntity.Facility`, reduced to its identifier. */
  datatype Facility = Facility(facilityId: string)

  /**
   * `ActivityJSONCodable` and `FacilityJSONCodable`: every list response
   * wraps its records under the "RECDATA" key.
   */
  datatype Envelope<T> = Envelope(recdata: seq<T>)

  /** What the transport hands to the response handler: an HTTP status code and a body, each possibly absent. */
  datatype HttpResponse = HttpResponse(statusCode: Option<int>, data: Option<Bytes>)

  /** Swift's `DecodingError` cases. */
  datatype DecodingError = TypeMismatch | ValueNotFound | KeyNotFound | DataCorrupted

  /** The outcome of `JSONDecoder().decode(T.self, from:)`: a value, or a thrown error. */
  datatype DecodeOutcome<T> = Decoded(value: T) | Thrown(error: DecodingError)

  type JSONDecoder<T> = Bytes -> DecodeOutcome<T>

  /** A parsed `URL`, kept as its absolute string. */
  datatype URL = URL(absoluteString: string)

  /** What `Alamofire.request` sends: the URL, the query parameters and the headers. */
  datatype Request = Request(url: URL, params: map<string, string>, headers: map<string, string>)

  // ---------------------------------------------------------------------
  // Decimal text of an integer (Swift's "\(n)" for an Int)
  // ---------------------------------------------------------------------

  predicate IsDigit(c: char) {
    '0' <= c <= '9'
  }

  function DigitChar(d: nat): (c: char)
    requires d < 10
    ensures IsDigit(c)
  {
    ('0' as int + d) as char
  }

  function DigitValue(c: char): (d: nat)
    requires IsDigit(c)
    ensures d < 10 && DigitChar(d) == c
  {
    c as int - '0' as int
  }

  /** Decimal digits of `n`, most significant first, without leading zeros. */
  function NatToDecimal(n: nat): (s: string)
    ensures |s| > 0
    ensures forall i :: 0 <= i < |s| ==> IsDigit(s[i])
    decreases n
  {
    if n < 10 then [DigitChar(n)] else NatToDecimal(n / 10) + [DigitChar(n % 10)]
  }

  /** String interpolation of an integer: a '-' in front of negative values, then the digits. */
  function Interpolate(n: int): (s: string)
    ensures |s| > 0
    ensures s[0] == '-' <==> n < 0
    ensures forall i :: 0 < i < |s| ==> IsDigit(s[i])
  {
    if n < 0 then "-" + NatToDecimal(-n) else NatToDecimal(n)
  }

  /** Reads a non-empty run of decimal digits; the inverse of `NatToDecimal`. */
  function ParseDigits(s: string): Option<nat>
    decreases |s|
  {
    if |s| == 0 || !IsDigit(s[|s| - 1]) then None
    else if |s| == 1 then Some(DigitValue(s[0]))
    else match ParseDigits(s[..|s| - 1])
      case None => None
      case Some(n) => Some(10 * n + DigitValue(s[|s| - 1]))
  }

  /** Reads an optionally negative decimal integer; the inverse of `Interpolate`. */
  function ParseInt(s: string): Option<int> {
    if |s| > 0 && s[0] == '-' then
      match ParseDigits(s[1..])
      case None => None
      case Some(n) => Some(-(n as int))
    else
      match ParseDigits(s)
      case None => None
      case Some(n) => Some(n)
  }

  lemma {:induction false} ParseDigitsOfNatToDecimal(n: nat)
    ensures ParseDigits(NatToDecimal(n)) == Some(n)
    decreases n
  {
    if n >= 10 {
      var s := NatToDecimal(n);
      assert s[..|s| - 1] == NatToDecimal(n / 10);
      ParseDigitsOfNatToDecimal(n / 10);
    }
  }

  /** The decimal text of every integer reads back as that integer. */
  lemma InterpolateRoundTrip(n: int)
    ensures ParseInt(Interpolate(n)) == Some(n)
  {
    if n < 0 {
      assert Interpolate(n)[1..] == NatToDecimal(-n);
      ParseDigitsOfNatToDecimal(-n);
    } else {
      ParseDigitsOfNatToDecimal(n);
    }
  }

  lemma InterpolateHasNoSlash(n: int)
    ensures '/' !in Interpolate(n)
  {
    var s := Interpolate(n);
    assert forall i :: 0 <= i < |s| ==> s[i] != '/';
  }

  // ---------------------------------------------------------------------
  // URL composition
  // ---------------------------------------------------------------------

  /** `RIDBAPI.BaseURL + entity.rawValue`: the collection of one resource. */
  function EntityURL(e: Entity): string {
    BaseURL + RawValue(e)
  }

  /** `RIDBAPI.BaseURL + entity.rawValue + "/\(id)"`: one record of a resource. */
  function EntityItemURL(e: Entity, id: int): string {
    BaseURL + RawValue(e) + "/" + Interpolate(id)
  }

  /** The '/'-separated segments of a path; a path without '/' is one segment. */
  function Segments(s: string): (r: seq<string>)
    ensures |r| >= 1
    decreases |s|
  {
    if s == [] then [[]]
    else
      var rest := Segments(s[1..]);
      if s[0] == '/' then [[]] + rest else [[s[0]] + rest[0]] + rest[1..]
  }

  lemma {:induction false} SegmentsOfSlashFreePrefix(a: string, t: string)
    requires '/' !in a
    ensures Segments(a + t) == [a + Segments(t)[0]] + Segments(t)[1..]
    decreases |a|
  {
    if a != [] {
      assert (a + t)[1..] == a[1..] + t;
      SegmentsOfSlashFreePrefix(a[1..], t);
      assert [a[0]] + (a[1..] + Segments(t)[0]) == a + Segments(t)[0];
    } else {
      assert a + t == t && a + Segments(t)[0] == Segments(t)[0];
      assert Segments(t) == [Segments(t)[0]] + Segments(t)[1..];
    }
  }

  lemma OneSegment(a: string)
    requires '/' !in a
    ensures Segments(a) == [a]
  {
    SegmentsOfSlashFreePrefix(a, []);
    assert a + [] == a;
  }

  lemma TwoSegments(a: string, b: string)
    requires '/' !in a && '/' !in b
    ensures Segments(a + "/" + b) == [a, b]
  {
    var t := "/" + b;
    assert a + "/" + b == a + t;
    assert t[1..] == b;
    OneSegment(b);
    assert Segments(t) == [[], b];
    SegmentsOfSlashFreePrefix(a, t);
    assert a + [] == a;
  }

  /** The part of `url` after `BaseURL`, when `url` starts with it. */
  function PathUnderBase(url: string): Option<string> {
    if |BaseURL| <= |url| && url[..|BaseURL|] == BaseURL then Some(url[|BaseURL|..]) else None
  }

  /** Reads a collection URL back: the resource it names. */
  function ParseCollectionURL(url: string): Option<Entity> {
    match PathUnderBase(url)
    case None => None
    case Some(path) =>
      var segs := Segments(path);
      if |segs| == 1 then FromRawValue(segs[0]) else None
  }

  /** Reads an item URL back: the resource and the identifier it names. */
  function ParseItemURL(url: string): Option<(Entity, int)> {
    match PathUnderBase(url)
    case None => None
    case Some(path) =>
      var segs := Segments(path);
      if |segs| != 2 then None
      else match (FromRawValue(segs[0]), ParseInt(segs[1]))
        case (Some(e), Some(id)) => Some((e, id))
        case _ => None
  }

  /** A collection URL is `BaseURL` followed by exactly one segment, the resource's raw value. */
  lemma CollectionURLRoundTrip(e: Entity)
    ensures PathUnderBase(EntityURL(e)).Some?
    ensures Segments(PathUnderBase(EntityURL(e)).value) == [RawValue(e)]
    ensures ParseCollectionURL(EntityURL(e)) == Some(e)
  {
    var url := EntityURL(e);
    assert url[..|BaseURL|] == BaseURL && url[|BaseURL|..] == RawValue(e);
    RawValueHasNoSlash(e);
    OneSegment(RawValue(e));
    FromRawValueOfRawValue(e);
  }

  /**
   * An item URL is `BaseURL` followed by exactly two segments, the resource's
   * raw value and the decimal identifier, and both can be read back.
   */
  lemma ItemURLRoundTrip(e: Entity, id: int)
    ensures PathUnderBase(EntityItemURL(e, id)).Some?
    ensures Segments(PathUnderBase(EntityItemURL(e, id)).value) == [RawValue(e), Interpolate(id)]
    ensures ParseItemURL(EntityItemURL(e, id)) == Some((e, id))
  {
    var url := EntityItemURL(e, id);
    var path := RawValue(e) + "/" + Interpolate(id);
    assert url == BaseURL + path;
    assert url[..|BaseURL|] == BaseURL && url[|BaseURL|..] == path;
    RawValueHasNoSlash(e);
    InterpolateHasNoSlash(id);
    TwoSegments(RawValue(e), Interpolate(id));
    FromRawValueOfRawValue(e);
    InterpolateRoundTrip(id);
  }

  /** Different (resource, identifier) pairs never share a URL. */
  lemma ItemURLInjective(e1: Entity, id1: int, e2: Entity, id2: int)
    ensures EntityItemURL(e1, id1) == EntityItemURL(e2, id2) ==> e1 == e2 && id1 == id2
  {
    ItemURLRoundTrip(e1, id1);
    ItemURLRoundTrip(e2, id2);
  }

  // ---------------------------------------------------------------------
  // `URL(string:)`
  // ---------------------------------------------------------------------

  /** Characters RFC 3986 allows in a URL (unreserved, reserved, and '%'). */
  predicate IsURLChar(c: char) {
    'a' <= c <= 'z' || 'A' <= c <= 'Z' || IsDigit(c) || c in "-._~:/?#[]@!$&'()*+,;=%"
  }

  predicate ParsesAsURL(s: string) {
    |s| > 0 && forall i :: 0 <= i < |s| ==> IsURLChar(s[i])
  }

  /** `URL(string:)`: fails on the empty string and on characters a URL cannot hold. */
  function URLFromString(s: string): Option<URL> {
    if ParsesAsURL(s) then Some(URL(s)) else None
  }

  lemma ConcatParsesAsURL(a: string, b: string)
    requires ParsesAsURL(a) && ParsesAsURL(b)
    ensures ParsesAsURL(a + b)
  {
    forall i | 0 <= i < |a + b|
      ensures IsURLChar((a + b)[i])
    {
      if i >= |a| {
        assert (a + b)[i] == b[i - |a|];
      }
    }
  }

  lemma RawValueParsesAsURL(e: Entity)
    ensures ParsesAsURL(RawValue(e))
  {
    var r := RawValue(e);
    assert forall i :: 0 <= i < |r| ==> IsLowerLetter(r[i]);
  }

  /** A collection URL always parses, so the "URL Error" branch of `fetchNearbyFacilities` is never taken. */
  lemma CollectionURLParses(e: Entity)
    ensures ParsesAsURL(EntityURL(e))
  {
    assert ParsesAsURL(BaseURL);
    RawValueParsesAsURL(e);
    ConcatParsesAsURL(BaseURL, RawValue(e));
  }

  /** An item URL always parses, so the "URL Error" branch of `getActivity` is never taken. */
  lemma ItemURLParses(e: Entity, id: int)
    ensures ParsesAsURL(EntityItemURL(e, id))
  {
    CollectionURLParses(e);
    assert ParsesAsURL("/");
    ConcatParsesAsURL(EntityURL(e), "/");
    var s := Interpolate(id);
    assert forall i :: 0 <= i < |s| ==> IsURLChar(s[i]);
    ConcatParsesAsURL(EntityURL(e) + "/", s);
  }

  // ---------------------------------------------------------------------
  // Requests
  // ---------------------------------------------------------------------

  /** The request `getActivity(byId:)` sends: the activity's item URL, no parameters. */
  function ActivityRequest(config: ApiConfig, activityId: Int64): (r: Option<Request>)
    ensures r.Some? <==> ParsesAsURL(EntityItemURL(activities, activityId as int))
    ensures r.Some? ==> r.value.url.absoluteString == BaseURL + "activities" + "/" + Interpolate(activityId as int)
    ensures r.Some? ==> ParseItemURL(r.value.url.absoluteString) == Some((activities, activityId as int))
    ensures r.Some? ==> r.value.params == map[] && r.value.headers == ApiKeyHeader(config)
  {
    match URLFromString(EntityItemURL(activities, activityId as int))
    case None => None
    case Some(url) =>
      ItemURLRoundTrip(activities, activityId as int);
      Some(Request(url, map[], ApiKeyHeader(config)))
  }

  /**
   * The request `fetchNearbyFacilities` sends. `latitude` and `longitude`
   * are the texts `String(latitude)` and `String(longitude)`; `radius`,
   * `full`, `limit` and `offset` are accepted and not used.
   */
  function NearbyRequest(config: ApiConfig, latitude: string, longitude: string,
                         radius: int, full: bool, limit: int, offset: int): (r: Option<Request>)
    ensures r.Some? <==> ParsesAsURL(EntityURL(facilities))
    ensures r.Some? ==> r.value.url.absoluteString == BaseURL + "facilities"
    ensures r.Some? ==> ParseCollectionURL(r.value.url.absoluteString) == Some(facilities)
    ensures r.Some? ==> r.value.params.Keys == {"full", "latitude", "longitude"}
    ensures r.Some? ==> r.value.params["full"] == "true"
    ensures r.Some? ==> r.value.params["latitude"] == latitude && r.value.params["longitude"] == longitude
    ensures r.Some? ==> r.value.headers == ApiKeyHeader(config)
  {
    match URLFromString(EntityURL(facilities))
    case None => None
    case Some(url) =>
      CollectionURLRoundTrip(facilities);
      Some(Request(url, map["full" := "true", "latitude" := latitude, "longitude" := longitude], ApiKeyHeader(config)))
  }

  /** Both requests are always built: the guard on `URL(string:)` never fails. */
  lemma RequestsAreAlwaysBuilt(config: ApiConfig, activityId: Int64, latitude: string, longitude: string,
                               radius: int, full: bool, limit: int, offset: int)
    ensures ActivityRequest(config, activityId).Some?
    ensures NearbyRequest(config, latitude, longitude, radius, full, limit, offset).Some?
  {
    ItemURLParses(activities, activityId as int);
    CollectionURLParses(facilities);
  }

  /** The radius, the full-results flag, the limit and the offset have no effect on the nearby request. */
  lemma NearbyRequestIgnoresOptions(config: ApiConfig, latitude: string, longitude: string,
                                    radius1: int, full1: bool, limit1: int, offset1: int,
                                    radius2: int, full2: bool, limit2: int, offset2: int)
    ensures NearbyRequest(config, latitude, longitude, radius1, full1, limit1, offset1)
         == NearbyRequest(config, latitude, longitude, radius2, full2, limit2, offset2)
  {
  }

  // ---------------------------------------------------------------------
  // Response handling
  // ---------------------------------------------------------------------

  /**
   * The guard in `performGET`: the body is handed on only when a status code
   * is present, lies in 200...299, and a body is present.
   */
  function AcceptedBody(response: HttpResponse): (body: Option<Bytes>)
    ensures body.Some? <==>
      response.statusCode.Some? && 200 <= response.statusCode.value <= 299 && response.data.Some?
    ensures body.Some? ==> body.value == response.data.value
  {
    match response.statusCode
    case None => None
    case Some(code) =>
      if !(200 <= code <= 299) then None
      else match response.data
        case None => None
        case Some(recdata) => Some(recdata)
  }

  /** `decodeRIDJson`: a thrown decoding error becomes `None`; nothing is propagated. */
  function DecodeRIDJson<T>(jsonData: Bytes, decoder: JSONDecoder<T>): (r: Option<T>)
    ensures r.None? <==> decoder(jsonData).Thrown?
    ensures r.Some? ==> decoder(jsonData) == Decoded(r.value)
  {
    match decoder(jsonData)
    case Thrown(_) => None
    case Decoded(objectUnwrapped) => Some(objectUnwrapped)
  }

  /** Swift's `Array.first`. */
  function First<T>(s: seq<T>): (r: Option<T>)
    ensures r.None? <==> s == []
    ensures r.Some? ==> r.value == s[0]
  {
    if s == [] then None else Some(s[0])
  }

  /**
   * What `getActivity(byId:)` passes to its completion for a response:
   * `None` when the completion is not called at all, otherwise the first
   * activity of the decoded envelope, or `None` within when it is empty.
   */
  function ActivityCompletion(response: HttpResponse, decoder: JSONDecoder<Envelope<Activity>>): (r: Option<Option<Activity>>)
    ensures r.Some? <==> AcceptedBody(response).Some? && decoder(response.data.value).Decoded?
    ensures r.Some? ==>
      var activities := decoder(response.data.value).value.recdata;
      (r.value.None? <==> activities == []) && (r.value.Some? ==> r.value.value == activities[0])
  {
    match AcceptedBody(response)
    case None => None
    case Some(jsonResponseData) =>
      match DecodeRIDJson(jsonResponseData, decoder)
      case None => None
      case Some(activityObjectUnwrapped) => Some(First(activityObjectUnwrapped.recdata))
  }

  /** The body handed to a completion when `request` was built and its response accepted. */
  function ResponseBody(request: Option<Request>, transport: Request -> HttpResponse): Option<Bytes> {
    match request
    case None => None
    case Some(r) => AcceptedBody(transport(r))
  }

  // ---------------------------------------------------------------------
  // Accumulation
  // ---------------------------------------------------------------------

  /** The concatenation of a list of fetches, oldest first. */
  function Flatten<T>(fetches: seq<seq<T>>): seq<T> {
    if fetches == [] then [] else Flatten(fetches[..|fetches| - 1]) + fetches[|fetches| - 1]
  }

  lemma FlattenAppend<T>(fetches: seq<seq<T>>, fetched: seq<T>)
    ensures Flatten(fetches + [fetched]) == Flatten(fetches) + fetched
  {
    assert (fetches + [fetched])[..|fetches|] == fetches;
  }

  /** A longer history of fetches concatenates to an extension of a shorter one. */
  lemma {:induction false} FlattenPrefix<T>(earlier: seq<seq<T>>, later: seq<seq<T>>)
    requires earlier <= later
    ensures Flatten(earlier) <= Flatten(later)
    decreases |later|
  {
    if |earlier| < |later| {
      var shorter := later[..|later| - 1];
      assert earlier <= shorter;
      FlattenPrefix(earlier, shorter);
    } else {
      assert earlier == later;
    }
  }

  /** Every element of every fetch is in the concatenation. */
  lemma {:induction false} FlattenContains<T>(fetches: seq<seq<T>>, i: nat, x: T)
    requires i < |fetches| && x in fetches[i]
    ensures x in Flatten(fetches)
    decreases |fetches|
  {
    if i < |fetches| - 1 {
      var earlier := fetches[..|fetches| - 1];
      assert earlier[i] == fetches[i];
      FlattenContains(earlier, i, x);
    }
  }

  lemma FlattenContainsAll<T>(fetches: seq<seq<T>>)
    ensures forall i, x :: 0 <= i < |fetches| && x in fetches[i] ==> x in Flatten(fetches)
  {
    forall i, x | 0 <= i < |fetches| && x in fetches[i]
      ensures x in Flatten(fetches)
    {
      FlattenContains(fetches, i, x);
    }
  }

  /** `s` is what remains of `t` after dropping some prefix. */
  predicate IsSuffix<T(==)>(s: seq<T>, t: seq<T>) {
    |s| <= |t| && t[|t| - |s|..] == s
  }

  /** The display list holds one projected item per fetched facility, in the same order. */
  predicate DisplaysAs<D(==)>(items: seq<D>, fetched: seq<Facility>, project: Facility -> D) {
    |items| == |fetched| && forall i :: 0 <= i < |fetched| ==> items[i] == project(fetched[i])
  }

  /**
   * The `forEach` loop of `fetchNearbyFacilities`: `project` stands for
   * `RootspaceDisplayItem(facility:)`.
   */
  method BuildDisplayList<D(==)>(fetched: seq<Facility>, project: Facility -> D) returns (items: seq<D>)
    ensures DisplaysAs(items, fetched, project)
  {
    items := [];
    for i := 0 to |fetched|
      invariant DisplaysAs(items, fetched[..i], project)
    {
      items := items + [project(fetched[i])];
    }
    assert fetched[..|fetched|] == fetched;
  }

  class Manager {
    /** The API key every request carries. */
    const config: ApiConfig

    /** Buffer of activities; initialised and never written. */
    var activityList: seq<Activity>
    /** Every facility fetched so far, duplicates included. */
    var facilityList: seq<Facility>
    /** The facilities of the most recent accepted nearby response. */
    var nearbyFacilityList: seq<Facility>

    /** The facility lists of all successful nearby responses, oldest first. */
    ghost var fetchHistory: seq<seq<Facility>>

    ghost predicate Valid()
      reads this
    {
      && activityList == []
      && facilityList == Flatten(fetchHistory)
      && (nearbyFacilityList == [] ||
          (|fetchHistory| > 0 && nearbyFacilityList == fetchHistory[|fetchHistory| - 1]))
    }

    constructor (config: ApiConfig)
      ensures Valid()
      ensures this.config == config
      ensures activityList == [] && facilityList == [] && nearbyFacilityList == []
      ensures fetchHistory == []
    {
      this.config := config;
      activityList := [];
      facilityList := [];
      nearbyFacilityList := [];
      fetchHistory := [];
    }

    /** `getActivities()`: always empty, since no handler stores activities. */
    function GetActivities(): (r: seq<Activity>)
      reads this
      requires Valid()
      ensures r == []
    {
      activityList
    }

    /** `allFacilities`: holds every facility of every successful nearby fetch. */
    function AllFacilities(): (r: seq<Facility>)
      reads this
      requires Valid()
      ensures forall i, f :: 0 <= i < |fetchHistory| && f in fetchHistory[i] ==> f in r
    {
      FlattenContainsAll(fetchHistory);
      facilityList
    }

    /** `nearbyFacilities`: the most recent fetch, which is always the tail of `allFacilities`. */
    function NearbyFacilities(): (r: seq<Facility>)
      reads this
      requires Valid()
      ensures IsSuffix(r, facilityList)
      ensures r == [] || (|fetchHistory| > 0 && r == fetchHistory[|fetchHistory| - 1])
    {
      assert nearbyFacilityList != [] ==>
        facilityList == Flatten(fetchHistory[..|fetchHistory| - 1]) + fetchHistory[|fetchHistory| - 1];
      nearbyFacilityList
    }

    /**
     * The effect of one nearby response whose accepted body is `body`
     * (`None` when the completion of `performGET` is not called).
     */
    twostate predicate AppliedNearbyResponse<D>(body: Option<Bytes>, decoder: JSONDecoder<Envelope<Facility>>,
                                                project: Facility -> D, new display: Option<seq<D>>)
      reads this
    {
      && activityList == old(activityList)
      && match body
        case None =>
          && display.None?
          && facilityList == old(facilityList)
          && nearbyFacilityList == old(nearbyFacilityList)
          && fetchHistory == old(fetchHistory)
        case Some(data) =>
          match DecodeRIDJson(data, decoder)
          case None =>
            && display.None?
            && nearbyFacilityList == []
            && facilityList == old(facilityList)
            && fetchHistory == old(fetchHistory)
          case Some(envelope) =>
            && nearbyFacilityList == envelope.recdata
            && facilityList == old(facilityList) + envelope.recdata
            && fetchHistory == old(fetchHistory) + [envelope.recdata]
            && display.Some?
            && DisplaysAs(display.value, envelope.recdata, project)
    }

    /**
     * The completion `fetchNearbyFacilities` gives to `performGET`: reset the
     * nearby list, decode, then append the fetched facilities to both lists
     * and build the display list.
     */
    method OnNearbyResponse<D(==)>(jsonResponseData: Bytes, decoder: JSONDecoder<Envelope<Facility>>,
                               project: Facility -> D) returns (display: Option<seq<D>>)
      requires Valid()
      modifies this
      ensures Valid()
      ensures AppliedNearbyResponse(Some(jsonResponseData), decoder, project, display)
    {
      nearbyFacilityList := [];
      var decoded := DecodeRIDJson(jsonResponseData, decoder);
      if decoded.None? {
        display := None;
        return;
      }
      var fetchedFacilityList := decoded.value.recdata;
      nearbyFacilityList := nearbyFacilityList + fetchedFacilityList;
      facilityList := facilityList + fetchedFacilityList;
      FlattenAppend(fetchHistory, fetchedFacilityList);
      fetchHistory := fetchHistory + [fetchedFacilityList];
      var displayableFacilities := BuildDisplayList(fetchedFacilityList, project);
      display := Some(displayableFacilities);
    }

    /**
     * `fetchNearbyFacilities`: build the request, send it, and handle the
     * response only when `performGET` accepts it.
     */
    method FetchNearbyFacilities<D(==)>(latitude: string, longitude: string, radius: int, full: bool,
                                    limit: int, offset: int, transport: Request -> HttpResponse,
                                    decoder: JSONDecoder<Envelope<Facility>>, project: Facility -> D)
      returns (request: Option<Request>, display: Option<seq<D>>)
      requires Valid()
      modifies this
      ensures Valid()
      ensures request == NearbyRequest(config, latitude, longitude, radius, full, limit, offset)
      ensures AppliedNearbyResponse(ResponseBody(request, transport), decoder, project, display)
    {
      request := NearbyRequest(config, latitude, longitude, radius, full, limit, offset);
      display := None;
      if request.None? {
        return;
      }
      var body := AcceptedBody(transport(request.value));
      if body.Some? {
        display := OnNearbyResponse(body.value, decoder, project);
      }
    }

    /**
     * `getActivity(byId:)`: build the request, send it, and hand the outcome
     * to the completion. It changes no field of the manager.
     */
    method GetActivity(activityId: Int64, transport: Request -> HttpResponse,
                       decoder: JSONDecoder<Envelope<Activity>>)
      returns (request: Option<Request>, completion: Option<Option<Activity>>)
      ensures request == ActivityRequest(config, activityId)
      ensures request.None? ==> completion.None?
      ensures request.Some? ==> completion == ActivityCompletion(transport(request.value), decoder)
    {
      request := ActivityRequest(config, activityId);
      completion := None;
      if request.Some? {
        completion := ActivityCompletion(transport(request.value), decoder);
      }
    }
  }

  /**
   * Between any two valid states in which the fetch history has only grown,
   * the earlier all-known list is a prefix of the later one: facilities are
   * only ever appended, never removed or reordered.
   */
  twostate lemma KnownFacilitiesOnlyGrow(m: Manager)
    requires old(m.Valid()) && m.Valid()
    requires old(m.fetchHistory) <= m.fetchHistory
    ensures old(m.facilityList) <= m.facilityList
  {
    FlattenPrefix(old(m.fetchHistory), m.fetchHistory);
  }
}
