/** How the two revisions of the client relate: where they read the same
    document the same way, and the documents on which they part. */
module Revisions {
  import opened Results
  import opened Json
  import opened Serde
  import opened Http
  import opened Temperature
  import WS = WeatherStack
  import Lib
  import Weather
  import Sample

  /** The Celsius-stored and the Kelvin-stored temperature read the same in
      both units. */
  lemma TemperaturesAgree(c: real)
    ensures Lib.FromCelsius(c).AsCelsius() == From(Celsius, c).To(Celsius)
    ensures Lib.FromCelsius(c).AsFahrenheit() == From(Celsius, c).To(Fahrenheit)
  {
    CelsiusReadInFahrenheit(c);
  }

  /** Where both revisions accept a body they read the same name, country,
      temperature and summary; only the separator in the location differs:
      "," in the typed revision, ", " in the pointer one. */
  lemma BothAcceptAlike(v: Json)
    requires WS.Deserialize(Document(v)).Ok? && Lib.Deserialize(Document(v)).Ok?
    ensures var w, lw := WS.Deserialize(Document(v)).value, Lib.Deserialize(Document(v)).value;
            var name, country := Lib.StrAt(v, Lib.LOCATION_NAME).value, Lib.StrAt(v, Lib.LOCATION_COUNTRY).value;
            && w.location == name + "," + country && lw.location == name + ", " + country
            && w.temperature.To(Celsius) == lw.temperature.AsCelsius()
            && w.summary == lw.summary
  {
    var w, lw := WS.Deserialize(Document(v)).value, Lib.Deserialize(Document(v)).value;
    var m, lm, cm, d := Lib.OkReadsObjects(v);
    var f := StructFields(v, WS.WEATHER_FIELDS).value;
    StructFieldsOfObject(m, WS.WEATHER_FIELDS, f);
    MemberIsLookup(m, "location");
    MemberIsLookup(m, "current");
    var g := StructFields(Obj(lm), WS.LOCATION_FIELDS).value;
    StructFieldsOfObject(lm, WS.LOCATION_FIELDS, g);
    MemberIsLookup(lm, "name");
    MemberIsLookup(lm, "country");
    var h := StructFields(Obj(cm), WS.CURRENT_FIELDS).value;
    StructFieldsOfObject(cm, WS.CURRENT_FIELDS, h);
    MemberIsLookup(cm, "temperature");
    MemberIsLookup(cm, "weather_descriptions");
    var ds := DecodeStrings(d).value;
    assert ParseIndex("0") == Some(0);
    assert d.items[0] == Str(ds[0]);
  }

  /** On a body built of objects, anything the typed revision reads as
      weather the pointer revision reads too, with the same parts. */
  lemma TypedObjectsReadByPointers(m: seq<(string, Json)>, lm: seq<(string, Json)>, cm: seq<(string, Json)>)
    requires WS.Deserialize(Document(Obj(m))).Ok?
    requires Lookup(m, "location") == Some(Obj(lm)) && Lookup(m, "current") == Some(Obj(cm))
    ensures var ws := WS.DecodeWeather(Obj(m)).value;
            (Lib.Deserialize(Document(Obj(m)))
             == Ok(Lib.Weather(ws.location.name + ", " + ws.location.country,
                               Lib.FromCelsius(ws.current.temperature as real),
                               ws.current.weatherDescriptions[0])))
  {
    var ws := WS.DecodeWeather(Obj(m)).value;
    var f := StructFields(Obj(m), WS.WEATHER_FIELDS).value;
    StructFieldsOfObject(m, WS.WEATHER_FIELDS, f);
    MemberIsLookup(m, "location");
    MemberIsLookup(m, "current");
    var g := StructFields(Obj(lm), WS.LOCATION_FIELDS).value;
    StructFieldsOfObject(lm, WS.LOCATION_FIELDS, g);
    MemberIsLookup(lm, "name");
    MemberIsLookup(lm, "country");
    var h := StructFields(Obj(cm), WS.CURRENT_FIELDS).value;
    StructFieldsOfObject(cm, WS.CURRENT_FIELDS, h);
    MemberIsLookup(cm, "temperature");
    MemberIsLookup(cm, "weather_descriptions");
    Lib.ObjectBody(m, lm, cm, ws.location.name, ws.location.country, Int(ws.current.temperature as int),
                   h[1].items, ws.current.weatherDescriptions[0]);
  }

  /** A body with the four fields, each in its own object, in the order
      the vendor sends them. */
  function Body(name: string, country: string, temperature: Json, descriptions: Json): Json
  {
    Obj([
      ("location", Obj([("name", Str(name)), ("country", Str(country))])),
      ("current", Obj([("temperature", temperature), ("weather_descriptions", descriptions)]))
    ])
  }

  /** The members of a Body read field by field, by either revision's rule,
      and the body is no error envelope. */
  lemma BodyMembers(name: string, country: string, temperature: Json, descriptions: Json)
    ensures var b := Body(name, country, temperature, descriptions);
            && Member(b.members, "location") == Some(b.members[0].1)
            && Member(b.members, "current") == Some(b.members[1].1)
            && Member(b.members[0].1.members, "name") == Some(Str(name))
            && Member(b.members[0].1.members, "country") == Some(Str(country))
            && Member(b.members[1].1.members, "temperature") == Some(temperature)
            && Member(b.members[1].1.members, "weather_descriptions") == Some(descriptions)
            && WS.DecodeErrorResponse(b).None?
  {
    var b := Body(name, country, temperature, descriptions);
    var m, lm, cm := b.members, b.members[0].1.members, b.members[1].1.members;
    MemberAtUniqueBinding(m, "location", 0);
    MemberAtUniqueBinding(m, "current", 1);
    MemberAtUniqueBinding(lm, "name", 0);
    MemberAtUniqueBinding(lm, "country", 1);
    MemberAtUniqueBinding(cm, "temperature", 0);
    MemberAtUniqueBinding(cm, "weather_descriptions", 1);
    MemberAbsent(m, "error");
    StructFieldsMissing(m, WS.ERROR_RESPONSE_FIELDS, 0);
  }

  /** A temperature written with a fraction is refused by the typed
      revision and read as it stands by the pointer one. */
  lemma FractionalTemperature(name: string, country: string, x: real, summary: string)
    ensures WS.Deserialize(Document(Body(name, country, Num(Frac(x)), Arr([Str(summary)])))) == Err(Schema)
    ensures Lib.Deserialize(Document(Body(name, country, Num(Frac(x)), Arr([Str(summary)]))))
         == Ok(Lib.Weather(name + ", " + country, Lib.FromCelsius(x), summary))
  {
    var b := Body(name, country, Num(Frac(x)), Arr([Str(summary)]));
    BodyMembers(name, country, Num(Frac(x)), Arr([Str(summary)]));
    WS.CurrentRequired(b.members, b.members[1].1.members);
    Lib.ObjectBody(b.members, b.members[0].1.members, b.members[1].1.members,
                   name, country, Frac(x), [Str(summary)], summary);
  }

  /** A description after the first that is not a string is refused by the
      typed revision and never looked at by the pointer one. */
  lemma LaterDescriptionUnchecked(name: string, country: string, t: Int16, summary: string, other: Json)
    requires !other.Str?
    ensures WS.Deserialize(Document(Body(name, country, Num(Int(t as int)), Arr([Str(summary), other])))) == Err(Schema)
    ensures Lib.Deserialize(Document(Body(name, country, Num(Int(t as int)), Arr([Str(summary), other]))))
         == Ok(Lib.Weather(name + ", " + country, Lib.FromCelsius(t as real), summary))
  {
    var d := Arr([Str(summary), other]);
    var b := Body(name, country, Num(Int(t as int)), d);
    BodyMembers(name, country, Num(Int(t as int)), d);
    assert !d.items[1].Str?;
    WS.CurrentRequired(b.members, b.members[1].1.members);
    Lib.ObjectBody(b.members, b.members[0].1.members, b.members[1].1.members,
                   name, country, Int(t as int), d.items, summary);
  }

  /** No description at all is an invalid response to the typed revision
      and a schema error to the pointer one. */
  lemma NoDescription(name: string, country: string, t: Int16)
    ensures WS.Deserialize(Document(Body(name, country, Num(Int(t as int)), Arr([])))) == Err(InvalidResponse)
    ensures Lib.Deserialize(Document(Body(name, country, Num(Int(t as int)), Arr([])))) == Err(Schema)
  {
    var b := Body(name, country, Num(Int(t as int)), Arr([]));
    BodyMembers(name, country, Num(Int(t as int)), Arr([]));
    WS.SuccessShape(b.members, b.members[0].1.members, b.members[1].1.members, name, country, t as int, []);
    var m, cm := b.members, b.members[1].1.members;
    GetIsLastBinding(m, "current", 1);
    GetIsLastBinding(cm, "weather_descriptions", 1);
    Lib.PointerThroughObjects(m, "current", cm, "weather_descriptions", Arr([]));
    PointerConcat(b, ["current", "weather_descriptions"], ["0"]);
    assert Lib.FIRST_DESCRIPTION == ["current", "weather_descriptions"] + ["0"];
  }

  /** Descriptions given as an object with a member "0" are refused by the
      typed revision, which wants an array, and read by the pointer one,
      whose last step looks the token up as an object key. */
  lemma DescriptionsAsObject(name: string, country: string, t: Int16, summary: string)
    ensures WS.Deserialize(Document(Body(name, country, Num(Int(t as int)), Obj([("0", Str(summary))])))) == Err(Schema)
    ensures Lib.Deserialize(Document(Body(name, country, Num(Int(t as int)), Obj([("0", Str(summary))]))))
         == Ok(Lib.Weather(name + ", " + country, Lib.FromCelsius(t as real), summary))
  {
    var d := Obj([("0", Str(summary))]);
    var b := Body(name, country, Num(Int(t as int)), d);
    BodyMembers(name, country, Num(Int(t as int)), d);
    WS.CurrentRequired(b.members, b.members[1].1.members);
    var m, lm, cm := b.members, b.members[0].1.members, b.members[1].1.members;
    GetIsLastBinding(m, "location", 0);
    GetIsLastBinding(m, "current", 1);
    GetIsLastBinding(lm, "name", 0);
    GetIsLastBinding(lm, "country", 1);
    GetIsLastBinding(cm, "temperature", 0);
    GetIsLastBinding(cm, "weather_descriptions", 1);
    GetIsLastBinding(d.members, "0", 0);
    Lib.PointerThroughObjects(m, "location", lm, "name", Str(name));
    Lib.PointerThroughObjects(m, "location", lm, "country", Str(country));
    Lib.PointerThroughObjects(m, "current", cm, "temperature", Num(Int(t as int)));
    Lib.PointerThroughObjects(m, "current", cm, "weather_descriptions", d);
    PointerConcat(b, ["current", "weather_descriptions"], ["0"]);
    assert Lib.FIRST_DESCRIPTION == ["current", "weather_descriptions"] + ["0"];
    assert ["0"][1..] == [];
  }

  /** A record written as a positional array is read by the typed revision
      and refused by the pointer one, whose keys are not array indices. */
  lemma PositionalArrays(name: string, country: string, t: Int16, summary: string)
    ensures var b := Arr([Arr([Str(name), Str(country)]), Arr([Num(Int(t as int)), Arr([Str(summary)])])]);
            && WS.Deserialize(Document(b)) == Ok(Weather.Weather(name + "," + country, From(Celsius, t as real), summary))
            && Lib.Deserialize(Document(b)) == Err(Schema)
  {
    var b := Arr([Arr([Str(name), Str(country)]), Arr([Num(Int(t as int)), Arr([Str(summary)])])]);
    assert StructFields(b, WS.ERROR_RESPONSE_FIELDS).None?;
    ParseWordIsNotIndex("location");
    assert Lib.StrAt(b, Lib.LOCATION_NAME).None?;
  }

  /** A key given twice is refused by the typed revision and read from its
      last binding by the pointer one. */
  lemma DuplicateLocation(first: Json, name: string, country: string, t: Int16, summary: string)
    ensures var b := Body(name, country, Num(Int(t as int)), Arr([Str(summary)]));
            var twice := Obj([("location", first)] + b.members);
            && WS.Deserialize(Document(twice)) == Err(Schema)
            && Lib.Deserialize(Document(twice)) == Ok(Lib.Weather(name + ", " + country, Lib.FromCelsius(t as real), summary))
  {
    var b := Body(name, country, Num(Int(t as int)), Arr([Str(summary)]));
    var m := [("location", first)] + b.members;
    var lm, cm := b.members[0].1.members, b.members[1].1.members;
    MemberRepeated(m, "location", 0, 1);
    StructFieldsMissing(m, WS.WEATHER_FIELDS, 0);
    MemberAbsent(m, "error");
    StructFieldsMissing(m, WS.ERROR_RESPONSE_FIELDS, 0);
    GetIsLastBinding(m, "location", 1);
    GetIsLastBinding(m, "current", 2);
    GetIsLastBinding(lm, "name", 0);
    GetIsLastBinding(lm, "country", 1);
    GetIsLastBinding(cm, "temperature", 0);
    GetIsLastBinding(cm, "weather_descriptions", 1);
    Lib.ObjectBody(m, lm, cm, name, country, Int(t as int), [Str(summary)], summary);
  }

  /** The vendor's error envelope is that vendor error to the typed revision
      and a schema error to the pointer one. */
  lemma ErrorEnvelope(code: Json, kind: Json)
    ensures WS.Deserialize(Document(Sample.ErrorPayload(code, kind)))
         == Err(Vendor("You have not supplied a valid API Access Key."))
    ensures Lib.Deserialize(Document(Sample.ErrorPayload(code, kind))) == Err(Schema)
  {
    WS.ErrorPayload(code, kind);
    Lib.ErrorPayload(code, kind);
  }
}
