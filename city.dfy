/**
 * The result-selection policy of `get_closest_city`: how a reverse-geocoding
 * response (or the failure to get one) becomes the "Closest City" text.
 * The HTTP request and the JSON decoding are not modelled; their outcome is
 * the `GeocodeResponse` value handed in.
 */
module City {
  import opened Wrappers

  /** The `address` object of a decoded response: it may or may not carry `city`. */
  datatype Address = Address(city: Option<string>)

  /** What the geocoding call produced. */
  datatype GeocodeResponse =
    | Decoded(address: Option<Address>, displayName: Option<string>)
    | NetworkError   // requests.RequestException
    | ParseError     // KeyError or json.JSONDecodeError
  {
    /** `"address" in data and "city" in data["address"]` */
    predicate HasCity() {
      Decoded? && address.Some? && address.value.city.Some?
    }
  }

  const UNNAMED_AREA: string := "Over Ocean or Unnamed Area"
  const API_ERROR: string := "API Error"
  const PARSING_ERROR: string := "Parsing Error"

  /** `s` is exactly the text of `text` before its first comma (all of `text` when it has none). */
  ghost predicate IsTextBeforeFirstComma(text: string, s: string)
  {
    |s| <= |text| && s == text[..|s|] && ',' !in s && (|s| == |text| || text[|s|] == ',')
  }

  /** `text.split(',')[0]`. */
  function TextBeforeFirstComma(text: string): (s: string)
    ensures IsTextBeforeFirstComma(text, s)
  {
    if text == [] || text[0] == ',' then []
    else [text[0]] + TextBeforeFirstComma(text[1..])
  }

  /** The characterisation above has exactly one solution: nothing else is "the first field". */
  lemma TextBeforeFirstCommaUnique(text: string, s: string)
    requires IsTextBeforeFirstComma(text, s)
    ensures s == TextBeforeFirstComma(text)
  {
  }

  /**
   * The name `get_closest_city` returns: the address's city, else the first
   * comma-separated field of the display name, else the open-ocean text;
   * the two failure kinds give their own fixed strings.
   */
  function CityName(response: GeocodeResponse): (name: string)
    ensures response.NetworkError? ==> name == API_ERROR
    ensures response.ParseError? ==> name == PARSING_ERROR
    ensures response.HasCity() ==> name == response.address.value.city.value
    ensures response.Decoded? && !response.HasCity() && response.displayName.Some? ==>
      IsTextBeforeFirstComma(response.displayName.value, name)
    ensures response.Decoded? && !response.HasCity() && response.displayName.None? ==>
      name == UNNAMED_AREA
  {
    match response
    case NetworkError => API_ERROR
    case ParseError => PARSING_ERROR
    case Decoded(address, displayName) =>
      if response.HasCity() then address.value.city.value
      else if displayName.Some? then TextBeforeFirstComma(displayName.value)
      else UNNAMED_AREA
  }

  /** The three decoded cases of the examples: a city, a display name only, neither. */
  lemma CityNameExamples()
    ensures CityName(Decoded(Some(Address(Some("Lagos"))), None)) == "Lagos"
    ensures CityName(Decoded(None, Some("Lagos, Nigeria"))) == "Lagos"
    ensures CityName(Decoded(Some(Address(None)), None)) == UNNAMED_AREA
  {
  }
}
