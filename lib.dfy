/** The pointer-based revision of the client: a temperature stored as
    Celsius, its configuration and request, and a deserialiser that reads
    four JSON pointers and has no error-envelope branch. */
module Lib {
  import opened Results
  import opened Json
  import opened Http
  import Sample

  /** A temperature stored as degrees Celsius. */
  datatype Temperature = Temperature(celsius: real)
  {
    /** The Celsius reading, which the Fahrenheit reading converts back to. */
    function AsCelsius(): (c: real)
      ensures c == (AsFahrenheit() - 32.0) / 1.8
    {
      celsius
    }

    /** The Fahrenheit reading: it converts back to the stored Celsius value
        by C = (F - 32) / 1.8, and lies above freezing exactly when the
        Celsius value does. */
    function AsFahrenheit(): (f: real)
      ensures (f - 32.0) / 1.8 == celsius
      ensures f > 32.0 <==> celsius > 0.0
    {
      celsius * 1.8 + 32.0
    }
  }

  /** The temperature of `val` degrees Celsius; it reads back as `val`. */
  function FromCelsius(val: real): (t: Temperature)
    ensures t.AsCelsius() == val
  {
    Temperature(val)
  }

  /** 10 degrees Celsius reads as 10 degrees Celsius and 50 degrees Fahrenheit. */
  lemma TenDegrees()
    ensures FromCelsius(10.0).AsCelsius() == 10.0
    ensures FromCelsius(10.0).AsFahrenheit() == 50.0
  {
  }

  datatype Weather = Weather(location: string, temperature: Temperature, summary: string)

  const BASE_URL: string := "https://api.weatherstack.com/current"

  /** Set once when the client is made; only a test redirects the base URL. */
  datatype Weatherstack = Weatherstack(baseUrl: string, apiKey: string)

  /** A client for the vendor's fixed endpoint with the caller's key. */
  function New(apiKey: string): (ws: Weatherstack)
    ensures ws.baseUrl == BASE_URL && ws.apiKey == apiKey
  {
    Weatherstack(BASE_URL, apiKey)
  }

  /** The one request a lookup sends: a GET of the base URL whose query is
      the location and the key, in that order and nothing else. */
  function Request(ws: Weatherstack, location: string): (r: Http.Request)
    ensures r.url == ws.baseUrl
    ensures r.query == [("query", location), ("access_key", ws.apiKey)]
  {
    Get(ws.baseUrl, [("query", location), ("access_key", ws.apiKey)])
  }

  /** The pointers read, as reference tokens: "/location/name",
      "/location/country", "/current/temperature" and
      "/current/weather_descriptions/0". */
  const LOCATION_NAME: seq<string> := ["location", "name"]
  const LOCATION_COUNTRY: seq<string> := ["location", "country"]
  const CURRENT_TEMPERATURE: seq<string> := ["current", "temperature"]
  const FIRST_DESCRIPTION: seq<string> := ["current", "weather_descriptions", "0"]

  function StrAt(v: Json, path: seq<string>): Option<string>
  {
    match Pointer(v, path)
    case None => None
    case Some(x) => AsStr(x)
  }

  function F64At(v: Json, path: seq<string>): Option<real>
  {
    match Pointer(v, path)
    case None => None
    case Some(x) => AsF64(x)
  }

  /** Map a response body to a weather record: all four pointers must
      resolve, the three texts to strings and the temperature to any
      number; anything else is a schema error. */
  function Deserialize(text: Text): (r: Result<Weather>)
    ensures r.Err? ==> r.error == Schema
    ensures r.Ok? <==> (text.Document? && StrAt(text.value, LOCATION_NAME).Some?
                        && StrAt(text.value, LOCATION_COUNTRY).Some?
                        && F64At(text.value, CURRENT_TEMPERATURE).Some?
                        && StrAt(text.value, FIRST_DESCRIPTION).Some?)
  {
    match text
    case Malformed => Err(Schema)
    case Document(v) =>
      match (StrAt(v, LOCATION_NAME), StrAt(v, LOCATION_COUNTRY), F64At(v, CURRENT_TEMPERATURE), StrAt(v, FIRST_DESCRIPTION))
      case (Some(name), Some(country), Some(t), Some(summary)) =>
        Ok(Weather(name + ", " + country, FromCelsius(t), summary))
      case _ => Err(Schema)
  }

  /** One lookup: send the request, reject a failed send or an error status,
      read the body, and only then deserialise it. */
  function GetWeather(ws: Weatherstack, location: string, client: Client): (r: Result<Weather>)
    ensures var o := client(Request(ws, location));
            && (o.SendFailed? ==> r == Err(Transport))
            && (o.Received? && IsErrorStatus(o.response.status) ==> r == Err(HttpStatus(o.response.status)))
            && (r.Ok? ==> o.Received? && o.response.body.Readable? && r == Deserialize(o.response.body.text))
  {
    Receive(client(Request(ws, location)), Deserialize)
  }

  /** Two object steps of a pointer are two member lookups. */
  lemma PointerThroughObjects(m: seq<(string, Json)>, a: string, lm: seq<(string, Json)>, b: string, x: Json)
    requires Lookup(m, a) == Some(Obj(lm)) && Lookup(lm, b) == Some(x)
    ensures Pointer(Obj(m), [a, b]) == Some(x)
  {
    assert [a, b][1..] == [b];
    assert [b][1..] == [];
    assert Pointer(x, []) == Some(x);
    assert Pointer(Obj(lm), [b]) == Some(x);
  }

  /** Read from objects, the record takes the last binding of each key: the
      location is "name, country", any number is the Celsius temperature,
      and only the first description is read, whatever the others are. */
  lemma ObjectBody(m: seq<(string, Json)>, lm: seq<(string, Json)>, cm: seq<(string, Json)>,
                   name: string, country: string, t: Number, descriptions: seq<Json>, summary: string)
    requires Lookup(m, "location") == Some(Obj(lm)) && Lookup(m, "current") == Some(Obj(cm))
    requires Lookup(lm, "name") == Some(Str(name)) && Lookup(lm, "country") == Some(Str(country))
    requires Lookup(cm, "temperature") == Some(Num(t))
    requires Lookup(cm, "weather_descriptions") == Some(Arr(descriptions))
    requires |descriptions| > 0 && descriptions[0] == Str(summary)
    ensures Deserialize(Document(Obj(m)))
         == Ok(Weather(name + ", " + country, FromCelsius(AsF64(Num(t)).value), summary))
  {
    PointerThroughObjects(m, "location", lm, "name", Str(name));
    PointerThroughObjects(m, "location", lm, "country", Str(country));
    PointerThroughObjects(m, "current", cm, "temperature", Num(t));
    PointerThroughObjects(m, "current", cm, "weather_descriptions", Arr(descriptions));
    PointerConcat(Obj(m), ["current", "weather_descriptions"], ["0"]);
    assert FIRST_DESCRIPTION == ["current", "weather_descriptions"] + ["0"];
    assert ParseIndex("0") == Some(0);
  }

  /** There is no error-envelope branch: a body without a "location" member,
      the vendor's error envelope among them, is a schema error. */
  lemma NoLocationIsSchemaError(m: seq<(string, Json)>)
    requires Lookup(m, "location").None?
    ensures Deserialize(Document(Obj(m))) == Err(Schema)
  {
  }

  /** A successful read went through objects: the document, its "location"
      and its "current" are objects, because none of those keys can be read
      as an array index. The descriptions may be an array or an object with
      a member "0". */
  lemma OkReadsObjects(v: Json) returns (m: seq<(string, Json)>, lm: seq<(string, Json)>, cm: seq<(string, Json)>, descriptions: Json)
    requires Deserialize(Document(v)).Ok?
    ensures v == Obj(m)
    ensures Lookup(m, "location") == Some(Obj(lm)) && Lookup(m, "current") == Some(Obj(cm))
    ensures Lookup(lm, "name") == Some(Str(StrAt(v, LOCATION_NAME).value))
    ensures Lookup(lm, "country") == Some(Str(StrAt(v, LOCATION_COUNTRY).value))
    ensures Lookup(cm, "temperature").Some? && AsF64(Lookup(cm, "temperature").value) == F64At(v, CURRENT_TEMPERATURE)
    ensures Lookup(cm, "weather_descriptions") == Some(descriptions)
    ensures Step(descriptions, "0") == Some(Str(StrAt(v, FIRST_DESCRIPTION).value))
  {
    PointerKeyStep(v, "location", ["name"]);
    PointerKeyStep(v, "location", ["country"]);
    PointerKeyStep(v, "current", ["temperature"]);
    PointerKeyStep(v, "current", ["weather_descriptions", "0"]);
    m := v.members;
    var lv, cv := Lookup(m, "location").value, Lookup(m, "current").value;
    PointerKeyStep(lv, "name", []);
    PointerKeyStep(lv, "country", []);
    PointerKeyStep(cv, "temperature", []);
    PointerKeyStep(cv, "weather_descriptions", ["0"]);
    lm, cm := lv.members, cv.members;
    descriptions := Lookup(cm, "weather_descriptions").value;
    assert ["0"][1..] == [];
  }

  /** The sample body reads as Sunny, 11 degrees Celsius, in
      "London, United Kingdom" (written below as its three parts), whatever
      its other fields hold. */
  lemma SamplePayload(request: Json, region: Json, weatherCode: Json)
    ensures Deserialize(Document(Sample.Payload(request, region, weatherCode)))
         == Ok(Weather("London" + ", " + "United Kingdom", FromCelsius(11.0), "Sunny"))
  {
    var m := Sample.Payload(request, region, weatherCode).members;
    var lm, cm := m[1].1.members, m[2].1.members;
    GetIsLastBinding(m, "location", 1);
    GetIsLastBinding(m, "current", 2);
    GetIsLastBinding(lm, "name", 0);
    GetIsLastBinding(lm, "country", 1);
    GetIsLastBinding(cm, "temperature", 1);
    GetIsLastBinding(cm, "weather_descriptions", 3);
    ObjectBody(m, lm, cm, "London", "United Kingdom", Int(11), [Str("Sunny")], "Sunny");
  }

  /** The vendor's error envelope is only a schema error here. */
  lemma ErrorPayload(code: Json, kind: Json)
    ensures Deserialize(Document(Sample.ErrorPayload(code, kind))) == Err(Schema)
  {
    NoLocationIsSchemaError(Sample.ErrorPayload(code, kind).members);
  }

  /** The request built for the key "dummy API key" and the location
      "London,UK". */
  lemma RequestExample()
    ensures Request(New("dummy API key"), "London,UK")
         == Get("https://api.weatherstack.com/current", [("query", "London,UK"), ("access_key", "dummy API key")])
  {
  }

  /** Against a server at any base URL that answers this request with status
      200 and the sample body, a lookup yields the sample weather. */
  lemma LookupAgainstServer(ws: Weatherstack, location: string, client: Client, request: Json, region: Json, weatherCode: Json)
    requires client(Request(ws, location)) == Received(Response(200, Readable(Document(Sample.Payload(request, region, weatherCode)))))
    ensures GetWeather(ws, location, client) == Ok(Weather("London" + ", " + "United Kingdom", FromCelsius(11.0), "Sunny"))
  {
    SamplePayload(request, region, weatherCode);
  }
}
