/**
 * The fixed configuration of the RIDB client (`RIDBAPI`): the API root, the
 * table of resource names that form the first path segment of every request,
 * and the single header that carries the API key.
 */
module RidbApi {
  import opened Wrappers

  /** Root of every request; resource names are appended directly to it. */
  const BaseURL: string := "https://ridb.recreation.gov/api/v1/"

  lemma BaseURLEndsWithSlash()
    ensures |BaseURL| > 0 && BaseURL[|BaseURL| - 1] == '/'
    ensures BaseURL == "https://ridb.recreation.gov/api/v1/"
  {
  }

  /**
   * `RIDBAPI.Entities`: one case per RIDB resource. The cases keep the Swift
   * spelling, because a Swift `String` enum without explicit raw values uses
   * the case name as its raw value.
   */
  datatype Entity =
    | activities
    | attributes
    | campsites
    | events
    | facilities
    | facilityactivities
    | facilityaddresses
    | facilitycampsites
    | facilitypermitentrances
    | facilityrecareas
    | facilitytours
    | links
    | medias
    | organizations
    | permitentrances
    | permittedequipments
    | recreationareas
    | recreationareaactivities
    | recreationareaaddresses
    | recreationareafacilities
    | yours
    | zones

  predicate IsLowerLetter(c: char) {
    'a' <= c <= 'z'
  }

  predicate AllLowerLetters(s: string) {
    forall i :: 0 <= i < |s| ==> IsLowerLetter(s[i])
  }

  /** `Entities.rawValue`: a non-empty word of lower-case ASCII letters. */
  function RawValue(e: Entity): (r: string)
    ensures |r| > 0
    ensures AllLowerLetters(r)
  {
    TopLevelNamesAreLowercase();
    FacilityNamesAreLowercase();
    RecreationAreaNamesAreLowercase();
    match e
    case activities => "activities"
    case attributes => "attributes"
    case campsites => "campsites"
    case events => "events"
    case facilities => "facilities"
    case facilityactivities => "facilityactivities"
    case facilityaddresses => "facilityaddresses"
    case facilitycampsites => "facilitycampsites"
    case facilitypermitentrances => "facilitypermitentrances"
    case facilityrecareas => "facilityrecareas"
    case facilitytours => "facilitytours"
    case links => "links"
    case medias => "medias"
    case organizations => "organizations"
    case permitentrances => "permitentrances"
    case permittedequipments => "permittedequipments"
    case recreationareas => "recreationareas"
    case recreationareaactivities => "recreationareaactivities"
    case recreationareaaddresses => "recreationareaaddresses"
    case recreationareafacilities => "recreationareafacilities"
    case yours => "yours"
    case zones => "zones"
  }

  // The lower-case check of the 22 literals, split in three so that each proof stays small.

  lemma TopLevelNamesAreLowercase()
    ensures AllLowerLetters("activities") && AllLowerLetters("attributes")
    ensures AllLowerLetters("campsites") && AllLowerLetters("events")
    ensures AllLowerLetters("links") && AllLowerLetters("medias")
    ensures AllLowerLetters("organizations") && AllLowerLetters("permitentrances")
    ensures AllLowerLetters("permittedequipments") && AllLowerLetters("yours")
    ensures AllLowerLetters("zones")
  {
  }

  lemma FacilityNamesAreLowercase()
    ensures AllLowerLetters("facilities") && AllLowerLetters("facilityactivities")
    ensures AllLowerLetters("facilityaddresses") && AllLowerLetters("facilitycampsites")
    ensures AllLowerLetters("facilitypermitentrances") && AllLowerLetters("facilityrecareas")
    ensures AllLowerLetters("facilitytours")
  {
  }

  lemma RecreationAreaNamesAreLowercase()
    ensures AllLowerLetters("recreationareas") && AllLowerLetters("recreationareaactivities")
    ensures AllLowerLetters("recreationareaaddresses") && AllLowerLetters("recreationareafacilities")
  {
  }

  /** Swift's synthesised `Entities(rawValue:)`: the case whose raw value is `s`, if any. */
  function FromRawValue(s: string): Option<Entity> {
    match s
    case "activities" => Some(activities)
    case "attributes" => Some(attributes)
    case "campsites" => Some(campsites)
    case "events" => Some(events)
    case "facilities" => Some(facilities)
    case "facilityactivities" => Some(facilityactivities)
    case "facilityaddresses" => Some(facilityaddresses)
    case "facilitycampsites" => Some(facilitycampsites)
    case "facilitypermitentrances" => Some(facilitypermitentrances)
    case "facilityrecareas" => Some(facilityrecareas)
    case "facilitytours" => Some(facilitytours)
    case "links" => Some(links)
    case "medias" => Some(medias)
    case "organizations" => Some(organizations)
    case "permitentrances" => Some(permitentrances)
    case "permittedequipments" => Some(permittedequipments)
    case "recreationareas" => Some(recreationareas)
    case "recreationareaactivities" => Some(recreationareaactivities)
    case "recreationareaaddresses" => Some(recreationareaaddresses)
    case "recreationareafacilities" => Some(recreationareafacilities)
    case "yours" => Some(yours)
    case "zones" => Some(zones)
    case _ => None
  }

  /** Raw values and `Entities(rawValue:)` are inverse to each other, in both directions. */
  lemma RawValueRoundTrip(s: string, e: Entity)
    ensures FromRawValue(s) == Some(e) <==> s == RawValue(e)
  {
    FromRawValueOfRawValue(e);
    if FromRawValue(s) == Some(e) {
      FromRawValueSound(s);
    }
  }

  lemma FromRawValueOfRawValue(e: Entity)
    ensures FromRawValue(RawValue(e)) == Some(e)
  {
  }

  lemma FromRawValueSound(s: string)
    ensures FromRawValue(s).Some? ==> s == RawValue(FromRawValue(s).value)
  {
  }

  /** The 22 raw values are pairwise distinct: an entity is determined by its path segment. */
  lemma RawValueInjective(e1: Entity, e2: Entity)
    ensures RawValue(e1) == RawValue(e2) ==> e1 == e2
  {
    RawValueRoundTrip(RawValue(e1), e1);
    RawValueRoundTrip(RawValue(e1), e2);
  }

  /** No raw value contains a '/', so each one is exactly one URL path segment. */
  lemma RawValueHasNoSlash(e: Entity)
    ensures '/' !in RawValue(e)
  {
    var r := RawValue(e);
    assert forall i :: 0 <= i < |r| ==> r[i] != '/';
  }

  /**
   * The key set by `RIDBAPI(apikey:)`: a single process-wide value, fixed
   * once configured.
   */
  datatype ApiConfig = ApiConfig(apiKey: string)

  const ApiKeyHeaderName: string := "apikey"

  /** `RIDBAPI.apikeyHeader`: exactly one header, "apikey", carrying the configured key. */
  function ApiKeyHeader(config: ApiConfig): (h: map<string, string>)
    ensures h.Keys == {"apikey"}
    ensures h["apikey"] == config.apiKey
  {
    map[ApiKeyHeaderName := config.apiKey]
  }
}
