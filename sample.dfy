/** Response bodies of the shapes the vendor returns: a success body for
    London with the values the deserialiser tests expect, and the error
    envelope it sends with status 200. Each also carries fields the
    deserialisers do not read; their values are parameters, so a fact
    proved about these bodies holds whatever those fields contain. */
module Sample {
  import opened Json

  function Payload(request: Json, region: Json, weatherCode: Json): Json
  {
    Obj([
      ("request", request),
      ("location", Obj([
        ("name", Str("London")),
        ("country", Str("United Kingdom")),
        ("region", region)])),
      ("current", Obj([
        ("observation_time", Str("12:14 PM")),
        ("temperature", Num(Int(11))),
        ("weather_code", weatherCode),
        ("weather_descriptions", Arr([Str("Sunny")]))]))
    ])
  }

  function ErrorPayload(code: Json, kind: Json): Json
  {
    Obj([
      ("success", Bool(false)),
      ("error", Obj([
        ("code", code),
        ("type", kind),
        ("info", Str("You have not supplied a valid API Access Key."))]))
    ])
  }
}
