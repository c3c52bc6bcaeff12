/** The vendor client of the provider capability: its configuration, the
    request it sends, the typed shapes it reads a response into, and the
    deserialiser that checks the vendor's error envelope before the success
    shape. */
module WeatherStack {
  import opened Results
  import opened Json
  import opened Serde
  import opened Http
  import opened Temperature
  import opened Weather
  import Sample

  const BASE_URL: string := "https://api.weatherstack.com/current"

  /** Set once when the client is made and never changed. */
  datatype WeatherStack = WeatherStack(baseUrl: string, apiKey: string)

  /** A client for the vendor's fixed endpoint with the caller's key. */
  function New(apiKey: string): (ws: WeatherStack)
    ensures ws.baseUrl == BASE_URL && ws.apiKey == apiKey
  {
    WeatherStack(BASE_URL, apiKey)
  }

  /** The one request a lookup sends. */
  function Request(ws: WeatherStack, location: string): (r: Http.Request)
    ensures r.url == ws.baseUrl
    ensures r.query == [("query", location), ("access_key", ws.apiKey)]
  {
    Get(ws.baseUrl, [("query", location), ("access_key", ws.apiKey)])
  }

  /** The typed shapes of a response. Fields the vendor sends beyond these
      are ignored. */
  datatype WSLocation = WSLocation(name: string, country: string)
  datatype WSCurrent = WSCurrent(temperature: Int16, weatherDescriptions: seq<string>)
  datatype WSWeather = WSWeather(location: WSLocation, current: WSCurrent)
  datatype WSError = WSError(info: string)
  datatype WSErrorResponse = WSErrorResponse(error: WSError)

  const LOCATION_FIELDS: seq<string> := ["name", "country"]
  const CURRENT_FIELDS: seq<string> := ["temperature", "weather_descriptions"]
  const WEATHER_FIELDS: seq<string> := ["location", "current"]
  const ERROR_FIELDS: seq<string> := ["info"]
  const ERROR_RESPONSE_FIELDS: seq<string> := ["error"]

  /** A location record: from an object, the name and the country must each
      occur once and be strings. A value that is neither an object nor an
      array is no record. */
  function DecodeLocation(v: Json): (r: Option<WSLocation>)
    ensures !v.Obj? && !v.Arr? ==> r.None?
    ensures v.Obj? ==> (r.Some? <==> (Member(v.members, "name").Some? && Member(v.members, "name").value.Str?
                                     && Member(v.members, "country").Some? && Member(v.members, "country").value.Str?))
    ensures v.Obj? && r.Some? ==> Member(v.members, "name") == Some(Str(r.value.name))
                                  && Member(v.members, "country") == Some(Str(r.value.country))
    ensures v.Arr? ==> (r.Some? <==> (|v.items| == 2 && v.items[0].Str? && v.items[1].Str?))
    ensures v.Arr? && r.Some? ==> v.items == [Str(r.value.name), Str(r.value.country)]
  {
    StructFieldsPair(v, "name", "country");
    match StructFields(v, LOCATION_FIELDS)
    case None => None
    case Some(f) =>
      match (AsStr(f[0]), AsStr(f[1]))
      case (Some(name), Some(country)) => Some(WSLocation(name, country))
      case _ => None
  }

  /** A current-conditions record: from an object, the temperature must
      occur once as an i16 and the descriptions once as a list of strings. */
  function DecodeCurrent(v: Json): (r: Option<WSCurrent>)
    ensures !v.Obj? && !v.Arr? ==> r.None?
    ensures v.Obj? ==> (r.Some? <==> (Member(v.members, "temperature").Some?
                                     && DecodeInt16(Member(v.members, "temperature").value).Some?
                                     && Member(v.members, "weather_descriptions").Some?
                                     && DecodeStrings(Member(v.members, "weather_descriptions").value).Some?))
    ensures v.Obj? && r.Some? ==> Member(v.members, "temperature") == Some(Num(Int(r.value.temperature as int)))
                                  && DecodeStrings(Member(v.members, "weather_descriptions").value)
                                     == Some(r.value.weatherDescriptions)
    ensures v.Arr? ==> (r.Some? <==> (|v.items| == 2 && DecodeInt16(v.items[0]).Some?
                                      && DecodeStrings(v.items[1]).Some?))
    ensures v.Arr? && r.Some? ==> v.items[0] == Num(Int(r.value.temperature as int))
                                  && DecodeStrings(v.items[1]) == Some(r.value.weatherDescriptions)
  {
    StructFieldsPair(v, "temperature", "weather_descriptions");
    match StructFields(v, CURRENT_FIELDS)
    case None => None
    case Some(f) =>
      match (DecodeInt16(f[0]), DecodeStrings(f[1]))
      case (Some(t), Some(ds)) => Some(WSCurrent(t, ds))
      case _ => None
  }

  /** The success shape: from an object, "location" and "current" must each
      occur once and read as their records. */
  function DecodeWeather(v: Json): (r: Option<WSWeather>)
    ensures !v.Obj? && !v.Arr? ==> r.None?
    ensures v.Obj? ==> (r.Some? <==> (Member(v.members, "location").Some?
                                     && DecodeLocation(Member(v.members, "location").value).Some?
                                     && Member(v.members, "current").Some?
                                     && DecodeCurrent(Member(v.members, "current").value).Some?))
    ensures v.Obj? && r.Some? ==> Some(r.value.location) == DecodeLocation(Member(v.members, "location").value)
                                  && Some(r.value.current) == DecodeCurrent(Member(v.members, "current").value)
    ensures v.Arr? ==> (r.Some? <==> (|v.items| == 2 && DecodeLocation(v.items[0]).Some?
                                      && DecodeCurrent(v.items[1]).Some?))
    ensures v.Arr? && r.Some? ==> Some(r.value.location) == DecodeLocation(v.items[0])
                                  && Some(r.value.current) == DecodeCurrent(v.items[1])
  {
    StructFieldsPair(v, "location", "current");
    match StructFields(v, WEATHER_FIELDS)
    case None => None
    case Some(f) =>
      match (DecodeLocation(f[0]), DecodeCurrent(f[1]))
      case (Some(l), Some(c)) => Some(WSWeather(l, c))
      case _ => None
  }

  /** The vendor's error detail: from an object, "info" must occur once as
      a string. */
  function DecodeError(v: Json): (r: Option<WSError>)
    ensures !v.Obj? && !v.Arr? ==> r.None?
    ensures v.Obj? ==> (r.Some? <==> Member(v.members, "info").Some? && Member(v.members, "info").value.Str?)
    ensures v.Obj? && r.Some? ==> Member(v.members, "info") == Some(Str(r.value.info))
    ensures v.Arr? ==> (r.Some? <==> (|v.items| == 1 && v.items[0].Str?))
    ensures v.Arr? && r.Some? ==> v.items == [Str(r.value.info)]
  {
    StructFieldsSingle(v, "info");
    match StructFields(v, ERROR_FIELDS)
    case None => None
    case Some(f) =>
      match AsStr(f[0])
      case Some(info) => Some(WSError(info))
      case None => None
  }

  /** The vendor's error envelope: from an object, "error" must occur once
      and read as the error detail. */
  function DecodeErrorResponse(v: Json): (r: Option<WSErrorResponse>)
    ensures !v.Obj? && !v.Arr? ==> r.None?
    ensures v.Obj? ==> (r.Some? <==> Member(v.members, "error").Some? && DecodeError(Member(v.members, "error").value).Some?)
    ensures v.Obj? && r.Some? ==> Some(r.value.error) == DecodeError(Member(v.members, "error").value)
    ensures v.Arr? ==> (r.Some? <==> (|v.items| == 1 && DecodeError(v.items[0]).Some?))
    ensures v.Arr? && r.Some? ==> Some(r.value.error) == DecodeError(v.items[0])
  {
    StructFieldsSingle(v, "error");
    match StructFields(v, ERROR_RESPONSE_FIELDS)
    case None => None
    case Some(f) =>
      match DecodeError(f[0])
      case Some(e) => Some(WSErrorResponse(e))
      case None => None
  }

  /** Map a response body to a weather record. The error envelope is tried
      first; then the success shape; then the first description. */
  function Deserialize(text: Text): (r: Result<Weather>)
    ensures r.Err? ==> r.error.Vendor? || r.error == Schema || r.error == InvalidResponse
    ensures r.Ok? ==> text.Document? && DecodeErrorResponse(text.value).None?
  {
    match text
    case Malformed => Err(Schema)
    case Document(v) =>
      match DecodeErrorResponse(v)
      case Some(resp) => Err(Vendor(resp.error.info))
      case None =>
        match DecodeWeather(v)
        case None => Err(Schema)
        case Some(ws) =>
          if |ws.current.weatherDescriptions| == 0 then Err(InvalidResponse)
          else
            Ok(Weather(ws.location.name + "," + ws.location.country,
                       From(Celsius, ws.current.temperature as real),
                       ws.current.weatherDescriptions[0]))
  }

  /** One lookup: send the request, reject a failed send or an error status,
      read the body, and only then deserialise it. */
  function GetWeather(ws: WeatherStack, location: string, client: Client): (r: Result<Weather>)
    ensures var o := client(Request(ws, location));
            && (o.SendFailed? ==> r == Err(Transport))
            && (o.Received? && IsErrorStatus(o.response.status) ==> r == Err(HttpStatus(o.response.status)))
            && (r.Ok? ==> o.Received? && o.response.body.Readable? && r == Deserialize(o.response.body.text))
  {
    Receive(client(Request(ws, location)), Deserialize)
  }

  /** The client as a provider. */
  function AsProvider(ws: WeatherStack, client: Client): (p: Provider)
    ensures forall location :: p(location).Ok? ==> (client(Request(ws, location)).Received?
                                                  && !IsErrorStatus(client(Request(ws, location)).response.status))
  {
    location => GetWeather(ws, location, client)
  }

  /** A provider answer is the weather or one kind of error; an HTTP status
      error carries the error status the server sent. */
  lemma ProviderAnswers(ws: WeatherStack, client: Client, location: string)
    ensures var r, o := AsProvider(ws, client)(location), client(Request(ws, location));
            r.Err? && r.error.HttpStatus? ==> o.Received? && o.response.status == r.error.code && IsErrorStatus(r.error.code)
  {
  }

  /** A body whose "error" member has a string "info" is that vendor error,
      whatever else the body holds, including a complete success shape. */
  lemma VendorErrorWins(m: seq<(string, Json)>, em: seq<(string, Json)>, info: string)
    requires Member(m, "error") == Some(Obj(em))
    requires Member(em, "info") == Some(Str(info))
    ensures Deserialize(Document(Obj(m))) == Err(Vendor(info))
  {
    StructFieldsOfObject(m, ERROR_RESPONSE_FIELDS, [Obj(em)]);
    StructFieldsOfObject(em, ERROR_FIELDS, [Str(info)]);
  }

  /** With no error envelope, a body of the success shape yields the
      weather: location "name,country" without a space, the temperature
      built from Celsius, and the first description as the summary, the
      others ignored. With no description it is an invalid response. */
  lemma SuccessShape(m: seq<(string, Json)>, lm: seq<(string, Json)>, cm: seq<(string, Json)>,
                     name: string, country: string, t: int, descriptions: seq<Json>)
    requires DecodeErrorResponse(Obj(m)).None?
    requires Member(m, "location") == Some(Obj(lm)) && Member(m, "current") == Some(Obj(cm))
    requires Member(lm, "name") == Some(Str(name)) && Member(lm, "country") == Some(Str(country))
    requires Member(cm, "temperature") == Some(Num(Int(t))) && -0x8000 <= t < 0x8000
    requires Member(cm, "weather_descriptions") == Some(Arr(descriptions))
    requires forall i | 0 <= i < |descriptions| :: descriptions[i].Str?
    ensures Deserialize(Document(Obj(m)))
         == if |descriptions| == 0 then Err(InvalidResponse)
            else Ok(Weather(name + "," + country, From(Celsius, t as real), descriptions[0].str))
  {
    StructFieldsOfObject(m, WEATHER_FIELDS, [Obj(lm), Obj(cm)]);
    StructFieldsOfObject(lm, LOCATION_FIELDS, [Str(name), Str(country)]);
    StructFieldsOfObject(cm, CURRENT_FIELDS, [Num(Int(t)), Arr(descriptions)]);
  }

  /** Without "location" or "current", with either of them a value that does
      not read as its record (a scalar, or an object or positional array of
      the wrong shape), or with a "location" whose name or country is missing
      or not a string, the body is a schema error. */
  lemma LocationRequired(m: seq<(string, Json)>, lm: seq<(string, Json)>)
    requires DecodeErrorResponse(Obj(m)).None?
    requires Member(m, "location").None? || Member(m, "current").None?
          || DecodeLocation(Member(m, "location").value).None?
          || DecodeCurrent(Member(m, "current").value).None?
          || (Member(m, "location") == Some(Obj(lm))
              && (Member(lm, "name").None? || !Member(lm, "name").value.Str?
                  || Member(lm, "country").None? || !Member(lm, "country").value.Str?))
    ensures Deserialize(Document(Obj(m))) == Err(Schema)
  {
    var f := StructFields(Obj(m), WEATHER_FIELDS);
    if f.Some? {
      StructFieldsOfObject(m, WEATHER_FIELDS, f.value);
      var g := StructFields(Obj(lm), LOCATION_FIELDS);
      if g.Some? {
        StructFieldsOfObject(lm, LOCATION_FIELDS, g.value);
      }
    }
  }

  /** A "location" given as a positional array that lacks the country is
      a schema error, whatever "current" holds. */
  lemma ShortPositionalLocation(name: string, current: Json)
    ensures Deserialize(Document(Obj([("location", Arr([Str(name)])), ("current", current)]))) == Err(Schema)
  {
    var m := [("location", Arr([Str(name)])), ("current", current)];
    MemberAtUniqueBinding(m, "location", 0);
    MemberAbsent(m, "error");
    StructFieldsMissing(m, ERROR_RESPONSE_FIELDS, 0);
    LocationRequired(m, []);
  }

  /** A body that is not valid JSON, or that is neither an object nor an
      array, is a schema error. */
  lemma NotARecord(v: Json)
    requires !v.Obj? && !v.Arr?
    ensures Deserialize(Malformed) == Err(Schema)
    ensures Deserialize(Document(v)) == Err(Schema)
  {
  }

  /** A "current" whose temperature is missing, not an integer literal or
      outside the 16-bit range, or whose descriptions are missing or not
      all strings, makes the body a schema error. */
  lemma CurrentRequired(m: seq<(string, Json)>, cm: seq<(string, Json)>)
    requires DecodeErrorResponse(Obj(m)).None?
    requires Member(m, "current") == Some(Obj(cm))
    requires Member(cm, "temperature").None? || DecodeInt16(Member(cm, "temperature").value).None?
          || Member(cm, "weather_descriptions").None?
          || DecodeStrings(Member(cm, "weather_descriptions").value).None?
    ensures Deserialize(Document(Obj(m))) == Err(Schema)
  {
    var f := StructFields(Obj(m), WEATHER_FIELDS);
    if f.Some? {
      StructFieldsOfObject(m, WEATHER_FIELDS, f.value);
      var g := StructFields(Obj(cm), CURRENT_FIELDS);
      if g.Some? {
        StructFieldsOfObject(cm, CURRENT_FIELDS, g.value);
      }
    }
  }

  /** A top-level member that none of the shapes names changes nothing,
      wherever it appears. */
  lemma UnknownMembersIgnored(m1: seq<(string, Json)>, p: (string, Json), m2: seq<(string, Json)>)
    requires p.0 != "error" && p.0 != "location" && p.0 != "current"
    ensures Deserialize(Document(Obj(m1 + [p] + m2))) == Deserialize(Document(Obj(m1 + m2)))
  {
    StructFieldsIgnoreUnknown(m1, p, m2, ERROR_RESPONSE_FIELDS);
    StructFieldsIgnoreUnknown(m1, p, m2, WEATHER_FIELDS);
  }

  /** The sample body reads as Sunny, 11 degrees Celsius, in
      "London,United Kingdom" (written below as its three parts), whatever
      its other fields hold. */
  lemma SamplePayload(request: Json, region: Json, weatherCode: Json)
    ensures Deserialize(Document(Sample.Payload(request, region, weatherCode)))
         == Ok(Weather("London" + "," + "United Kingdom", From(Celsius, 11.0), "Sunny"))
  {
    var m := Sample.Payload(request, region, weatherCode).members;
    var lm, cm := m[1].1.members, m[2].1.members;
    MemberAtUniqueBinding(m, "location", 1);
    MemberAtUniqueBinding(m, "current", 2);
    MemberAtUniqueBinding(lm, "name", 0);
    MemberAtUniqueBinding(lm, "country", 1);
    MemberAtUniqueBinding(cm, "temperature", 1);
    MemberAtUniqueBinding(cm, "weather_descriptions", 3);
    MemberAbsent(m, "error");
    StructFieldsMissing(m, ERROR_RESPONSE_FIELDS, 0);
    SuccessShape(m, lm, cm, "London", "United Kingdom", 11, [Str("Sunny")]);
  }

  /** The vendor's error envelope reads as its info. */
  lemma ErrorPayload(code: Json, kind: Json)
    ensures Deserialize(Document(Sample.ErrorPayload(code, kind)))
         == Err(Vendor("You have not supplied a valid API Access Key."))
  {
    var e := Sample.ErrorPayload(code, kind).members;
    var em := e[1].1.members;
    MemberAtUniqueBinding(e, "error", 1);
    MemberAtUniqueBinding(em, "info", 2);
    VendorErrorWins(e, em, "You have not supplied a valid API Access Key.");
  }

  /** The request carries the location and the key as its only query pairs. */
  lemma RequestExample()
    ensures Request(New("dummy API key"), "London,UK")
         == Get("https://api.weatherstack.com/current", [("query", "London,UK"), ("access_key", "dummy API key")])
  {
  }
}
