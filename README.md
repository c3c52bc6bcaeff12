# umbrella: a model of the weather lookup

`umbrella` is a small command-line tool. It asks the Weatherstack service
for the current weather at a location and prints one line, for example
`Sunny 11ºC (London,United Kingdom)`. The repository holds two revisions of
the same client:

- `src/weatherstack.rs`, together with `src/temperature.rs` and
  `src/weather.rs`, reads the response into typed records with derived
  deserialisers. It checks the vendor's error envelope first. It stores a
  temperature as Kelvin.
- `src/lib.rs` reads the response through four JSON pointers and stores a
  temperature as Celsius.

This project models both revisions on an already-parsed JSON value. The
modules are:

- `Results`: Option, Result and the error kinds.
- `Json`: the parsed value and the member lookup of the parser's map, where
  the last binding of a repeated key wins. It also holds JSON pointer
  evaluation and the rule that turns a token into an array index.
- `Serde`: how a derived deserialiser reads a record, an `i16` and a list
  of strings. A string field reads as `Json.AsStr` does.
- `Http`: the request and the order in which a response is judged.
- `Temperature` and `Weather`: `src/temperature.rs` and `src/weather.rs`.
- `WeatherStack`: `src/weatherstack.rs`.
- `Lib`: `src/lib.rs`.
- `Sample`: the sample bodies used by the tests.
- `Revisions`: where the two deserialisers agree and where they differ.

Everything in the core is pure, so the model is datatypes, functions and
lemmas. The client configuration is set once in `new`, so it is a datatype.

Some things outside the model become inputs:

- **The network.** It is a function parameter, `Client = Request -> Outcome`.
  An outcome is a failed send, or a status code with a body. The body can
  be unreadable, malformed, or a parsed document.
- **Number formatting.** The number-to-text rule of the rendering is a
  parameter `show: real -> string`.

Temperatures are real numbers.

## Error kinds

The source reports errors as untyped messages. The model tags them by what
failed:

- `Transport`: the request could not be sent, or the body could not be
  read.
- `HttpStatus(code)`: the server answered with status 400 to 599.
- `Vendor(info)`: the vendor's error envelope, carrying its `info`.
- `Schema`: the body is not valid JSON or does not have the expected shape.
- `InvalidResponse`: the typed revision got an empty list of descriptions.

An empty description list fails with its own message, "invalid API
response" (`src/weatherstack.rs:72-74`), so the model gives it its own
kind, `InvalidResponse`. The pointer revision fails the same body because
`/current/weather_descriptions/0` does not resolve, which is `Schema`.

The two revisions also disagree on the location separator. The typed
revision joins name and country with `","` (`src/weatherstack.rs:76`). The
pointer revision joins them with `", "` (`src/lib.rs:98`). Each module
models its own file.

## Model

| member | source | states |
|---|---|---|
| Json.Lookup | src/lib.rs:79-93 | A member lookup finds nothing exactly when no member has the key, and whatever it finds is bound to the key in the object |
| Json.GetIsLastBinding | src/lib.rs:79-93 | When a key occurs more than once, lookup returns the value of its last binding |
| Json.LaterBindingWins | src/lib.rs:79-93 | A binding appended to an object overrides every earlier binding of its key |
| Json.OccurrencesAreBindings | src/lib.rs:79-93 | The values collected for a key are exactly the values bound to it |
| Json.OccurrencesAppend | src/lib.rs:79-93 | Appending a member adds its value to its own key's occurrences and to no other key's |
| Json.OccurrencesSkip | src/weatherstack.rs:34-65 | A member with another key, wherever it sits, does not change a key's occurrences |
| Json.ParseIndex | src/lib.rs:93 | A pointer token read as an array index is below 2^64 |
| Json.ParseIndexIsCanonical | src/lib.rs:93 | A token is read as index n exactly when n < 2^64 and the token is n's decimal spelling with no sign and no leading zero |
| Json.ParseWordIsNotIndex | src/lib.rs:80-93 | A token that does not start with a digit never selects an array element |
| Json.ShowIndex | src/lib.rs:93 | The decimal spelling of an index is a non-empty string of digits |
| Json.ShowIndexValue | src/lib.rs:93 | The decimal spelling of n has the value n and starts with '0' only when n is 0 |
| Json.ShowDecimalValue | src/lib.rs:93 | A digit string without a leading zero is the canonical spelling of its own value |
| Json.DecimalValueAtLeastLead | src/lib.rs:93 | A digit string's value is at least the value of its first digit |
| Json.DigitChar | src/lib.rs:93 | The digit character made for d is a digit whose value is d |
| Json.Step | src/lib.rs:80-93 | A pointer step succeeds only on an object or an array |
| Json.Pointer | src/lib.rs:80-93 | A pointer with at least one token resolves only from an object or an array |
| Json.PointerConcat | src/lib.rs:80-93 | Following a pointer in two parts is the same as following the whole pointer |
| Json.PointerKeyStep | src/lib.rs:80-93 | A pointer starting with a key that is not a number goes through an object's member lookup, and fails on any other value |
| Json.AsStr | src/lib.rs:81-94 | A value reads as a string exactly when it is a string, and then as that string; a String field of a typed record reads the same way (src/weatherstack.rs:44-45, 64) |
| Json.AsF64 | src/lib.rs:90 | Every number reads as a number and any other value does not. An integer reads as itself, and a number with a fraction or exponent reads as its own value |
| Serde.Member | src/weatherstack.rs:34-65 | A record field read from an object is one of the object's bindings of that key |
| Serde.MemberAtUniqueBinding | src/weatherstack.rs:34-65 | A key bound at exactly one position is read from that position |
| Serde.MemberRepeated | src/weatherstack.rs:34-65 | A key bound at two positions has at least two occurrences and gives no field, so the record is refused |
| Serde.MemberAbsent | src/weatherstack.rs:34-65 | A key no member carries gives no field |
| Serde.MemberIsLookup | src/weatherstack.rs:34-65 | Where the record reads a field, it reads the same value as the last-wins lookup |
| Serde.MemberIgnoresOtherKeys | src/weatherstack.rs:34-65 | A member with another key does not affect a field, wherever it appears |
| Serde.StructFields | src/weatherstack.rs:34-65 | A record read has one value per field. From an array it succeeds exactly when the array has one element per field, and the fields are the array's items in order. The other scalar values never read as a record |
| Serde.StructFieldsOfObject | src/weatherstack.rs:34-65 | From an object, the record's fields are f exactly when each field name occurs once and is bound to the matching element of f |
| Serde.StructFieldsMissing | src/weatherstack.rs:34-65 | An object whose field is missing or repeated is not the record |
| Serde.StructFieldsSingle | src/weatherstack.rs:55-65 | From an object, a one-field record is the field's unique binding, and fails when the field is missing or repeated |
| Serde.StructFieldsPair | src/weatherstack.rs:34-53 | From an object, a two-field record is the two fields' unique bindings in declaration order, and fails when either is missing or repeated |
| Serde.StructFieldsIgnoreUnknown | src/weatherstack.rs:34-65 | A member whose key is not a field name is ignored wherever it appears |
| Serde.DecodeInt16 | src/weatherstack.rs:51 | A value reads as an i16 exactly when it is an integer literal in [-32768, 32767], and then as that integer |
| Serde.DecodeStrings | src/weatherstack.rs:52 | A value reads as a list of strings exactly when it is an array of strings only, and then as those strings in order |
| Http.Receive | src/weatherstack.rs:24-31 | A lookup succeeds exactly when the request was sent, the status is not 4xx/5xx, the body was read and it decodes. The result is then the decoded body. A transport error comes from the send, the body read, or the decoder |
| Http.StatusBeforeBody | src/lib.rs:62-66 | An error status fails with that status whatever the body holds and whatever the decoder does |
| Http.SuccessDecodesBody | src/lib.rs:62-66 | Any other status passes a readable body to the decoder unchanged |
| Temperature.ToKelvin | src/temperature.rs:10-28 | Converting a reading to Kelvin and back in the same unit returns the reading |
| Temperature.KelvinRoundTrip | src/temperature.rs:10-28 | Reading a Kelvin value in a unit and converting it back gives the same Kelvin value |
| Temperature.FromKelvin | src/temperature.rs:15-27 | The freezing point of water reads 0 in Celsius and 32 in Fahrenheit, and a reading is above those marks exactly when the Kelvin value is above the freezing point |
| Temperature.Temperature.To | src/temperature.rs:38-41 | The reading in a unit converts back to the stored Kelvin value |
| Temperature.From | src/temperature.rs:33-41 | A temperature built from a value in a unit reads back as that value in that unit (Celsius and Fahrenheit round trips) |
| Temperature.CelsiusStoredAsKelvin | src/temperature.rs:2-13 | Building from Celsius c stores c + 273.15 |
| Temperature.ReadingsAgree | src/temperature.rs:10-41 | Any temperature's two readings satisfy F = C * 1.8 + 32 |
| Temperature.CelsiusReadInFahrenheit | src/temperature.rs:10-41 | Through Kelvin, a temperature built from Celsius c reads c * 1.8 + 32 in Fahrenheit |
| Temperature.FahrenheitReadInCelsius | src/temperature.rs:10-41 | Through Kelvin, a temperature built from Fahrenheit f reads (f - 32) / 1.8 in Celsius |
| Temperature.FreezingPoint | src/temperature.rs:51-53 | 0 °C reads as 0 °C and as 32 °F |
| Temperature.BoilingPoint | src/temperature.rs:54-56 | 212 °F reads as 212 °F and as 100 °C |
| Temperature.ReadingsMonotone | src/temperature.rs:10-41 | A warmer temperature reads higher in every unit |
| Weather.Render | src/weather.rs:12-22 | The rendered line is the summary, the shown reading, the location and six more characters |
| Weather.RenderStartsWithSummary | src/weather.rs:14-17 | The rendered line starts with the summary followed by a space |
| Weather.RenderEndsWithLocation | src/weather.rs:14-19 | The rendered line ends with "(" + location + ")" |
| Weather.RenderShowsCelsius | src/weather.rs:16-18 | After the summary and a space comes the shown Celsius reading, then "ºC (" |
| Weather.RenderedNumberIsCelsius | src/weather.rs:12-22 | A temperature built from Celsius v renders as summary + " " + show(v) + "ºC (" + location + ")", whatever Kelvin value is stored. One built from Fahrenheit v shows show((v - 32) / 1.8) |
| WeatherStack.New | src/weatherstack.rs:13-20 | A new client uses the vendor's fixed endpoint and the caller's key |
| WeatherStack.Request | src/weatherstack.rs:25-27 | The request goes to the base URL with exactly the query pairs ("query", location) and ("access_key", key), in that order |
| WeatherStack.DecodeLocation | src/weatherstack.rs:41-46 | A value that is neither an object nor an array is no location. From an object, it succeeds exactly when "name" and "country" each occur once as strings. From an array, it succeeds exactly when the array is two strings. The record holds those strings |
| WeatherStack.DecodeCurrent | src/weatherstack.rs:48-53 | A value that is neither an object nor an array is no record. From an object, it succeeds exactly when "temperature" occurs once as an i16 and "weather_descriptions" once as a list of strings. From an array, it succeeds exactly when the array is those two values in that order. The record holds them |
| WeatherStack.DecodeWeather | src/weatherstack.rs:34-39 | A value that is neither an object nor an array is no record. From an object, it succeeds exactly when "location" and "current" each occur once and read as their records. From an array, it succeeds exactly when the array is those two records in that order. The record holds them |
| WeatherStack.DecodeError | src/weatherstack.rs:61-65 | A value that is neither an object nor an array is no error detail. From an object, it succeeds exactly when "info" occurs once as a string. From an array, it succeeds exactly when the array is one string. The record holds that string |
| WeatherStack.DecodeErrorResponse | src/weatherstack.rs:55-59 | A value that is neither an object nor an array is no envelope. From an object, it succeeds exactly when "error" occurs once and reads as the error detail. From an array, it succeeds exactly when the array is one error detail. The record holds that detail |
| WeatherStack.Deserialize | src/weatherstack.rs:67-80 | Every failure is a vendor error, a schema error or an invalid response. A success comes from a document that is not an error envelope |
| WeatherStack.GetWeather | src/weatherstack.rs:24-31 | A failed send is a transport error. An error status fails with that status before the body is read. A success is the deserialised body |
| WeatherStack.AsProvider | src/weatherstack.rs:23-32 | Used as a provider, the client answers with weather only for a request the server received and answered with a status that is not 4xx/5xx |
| WeatherStack.ProviderAnswers | src/weather.rs:24-31 | Used as a provider, the client only reports an HTTP status error for a 4xx/5xx status the server actually sent |
| WeatherStack.VendorErrorWins | src/weatherstack.rs:57-71 | A body whose "error" carries a string "info" fails with exactly that info, even when it also has the success shape |
| WeatherStack.SuccessShape | src/weatherstack.rs:67-79 | With no error envelope, the success shape gives location "name,country", the temperature built from Celsius, and the first description. Later descriptions are ignored. No description is an invalid response |
| WeatherStack.LocationRequired | src/weatherstack.rs:36-46 | A body is a schema error when "location" or "current" is missing, is repeated, or does not read as its record (a scalar, or an object or positional array of the wrong shape). The same holds when "location" is an object whose name or country is missing or not a string |
| WeatherStack.ShortPositionalLocation | src/weatherstack.rs:41-46 | A "location" written as a one-element positional array is a schema error, whatever "current" holds |
| WeatherStack.CurrentRequired | src/weatherstack.rs:48-53 | A temperature that is missing, not an integer or outside the i16 range is a schema error. So are descriptions that are missing or not all strings |
| WeatherStack.NotARecord | src/weatherstack.rs:67-71 | A body that is not valid JSON, or that is neither an object nor an array, is a schema error |
| WeatherStack.UnknownMembersIgnored | src/weatherstack.rs:34-65 | A top-level member that no shape names changes nothing |
| WeatherStack.SamplePayload | src/weatherstack.rs:89-99 | The sample body reads as Sunny, 11 °C, "London,United Kingdom", whatever its other fields hold |
| WeatherStack.ErrorPayload | src/weatherstack.rs:67-70 | The vendor's invalid-key envelope fails with its info text |
| WeatherStack.RequestExample | src/lib.rs:122-144 | The typed revision's client, made with key "dummy API key", sends for location "London,UK" a GET of the default endpoint with exactly the query pairs ("query", "London,UK") and ("access_key", "dummy API key"), the example the pointer revision's test checks |
| Lib.Temperature.AsFahrenheit | src/lib.rs:33-37 | The Fahrenheit reading converts back to the stored Celsius value, and is above 32 exactly when the Celsius value is above 0 |
| Lib.Temperature.AsCelsius | src/lib.rs:27-31 | The Celsius reading is the Fahrenheit reading converted back by C = (F - 32) / 1.8 |
| Lib.FromCelsius | src/lib.rs:23-31 | A temperature built from Celsius x reads back as x |
| Lib.TenDegrees | src/lib.rs:116-120 | 10 °C reads as 10 °C and as 50 °F |
| Lib.New | src/lib.rs:49-54 | A new client uses the vendor's fixed endpoint and the caller's key |
| Lib.Request | src/lib.rs:68-73 | The request goes to the base URL with exactly the query pairs ("query", location) and ("access_key", key), in that order |
| Lib.Deserialize | src/lib.rs:76-102 | Every failure is a schema error. It succeeds exactly when the document's name, country and first description pointers resolve to strings and its temperature pointer resolves to a number |
| Lib.GetWeather | src/lib.rs:62-66 | A failed send is a transport error. An error status fails with that status before the body is read. A success is the deserialised body |
| Lib.PointerThroughObjects | src/lib.rs:79-91 | A two-token pointer through objects is two member lookups |
| Lib.ObjectBody | src/lib.rs:79-101 | On objects, the record takes the last binding of each key. The location is "name, country". Any number is the Celsius temperature. Only the first description is read |
| Lib.NoLocationIsSchemaError | src/lib.rs:76-83 | With no error-envelope branch, a body without "location" (the vendor's error envelope among them) is a schema error |
| Lib.OkReadsObjects | src/lib.rs:79-96 | A success means the body, its "location" and its "current" are objects, whose member lookups give the values read |
| Lib.SamplePayload | src/lib.rs:146-159 | The sample body reads as Sunny, 11 °C, "London, United Kingdom", whatever its other fields hold |
| Lib.ErrorPayload | src/lib.rs:76-83 | The vendor's invalid-key envelope is a schema error |
| Lib.RequestExample | src/lib.rs:122-144 | The request for key "dummy API key" and location "London,UK" goes to the default endpoint with those two query pairs |
| Lib.LookupAgainstServer | src/lib.rs:161-186 | A server that answers the request with status 200 and the sample body yields the sample weather, at any base URL |
| Revisions.TemperaturesAgree | src/lib.rs:23-37 | The Celsius-stored and the Kelvin-stored temperature of c read the same in Celsius and in Fahrenheit |
| Revisions.BothAcceptAlike | src/lib.rs:76-102 | When both revisions accept a document, they read the same name, country, temperature and summary. Only the location separator differs |
| Revisions.TypedObjectsReadByPointers | src/weatherstack.rs:67-80 | On a document built of objects, whatever the typed revision accepts, the pointer revision accepts with the same parts |
| Revisions.BodyMembers | src/weatherstack.rs:34-65 | In a four-field body, each field is read from its own member, and the body is no error envelope |
| Revisions.FractionalTemperature | src/weatherstack.rs:51 | A temperature with a fraction is a schema error to the typed revision and read as it stands by the pointer revision (src/lib.rs:88-91) |
| Revisions.LaterDescriptionUnchecked | src/weatherstack.rs:52 | A later description that is not a string is a schema error to the typed revision and ignored by the pointer revision (src/lib.rs:92-96) |
| Revisions.NoDescription | src/weatherstack.rs:72-74 | No description is an invalid response to the typed revision and a schema error to the pointer revision (src/lib.rs:92-96) |
| Revisions.DescriptionsAsObject | src/lib.rs:92-96 | Descriptions given as an object with member "0" are read by the pointer revision and are a schema error to the typed revision |
| Revisions.PositionalArrays | src/weatherstack.rs:34-53 | A body written as positional arrays is read by the typed revision and is a schema error to the pointer revision (src/lib.rs:79-83) |
| Revisions.DuplicateLocation | src/weatherstack.rs:36-39 | A repeated "location" key is a schema error to the typed revision; the pointer revision reads its last binding (src/lib.rs:79-83) |
| Revisions.ErrorEnvelope | src/weatherstack.rs:67-70 | The vendor's error envelope is a vendor error to the typed revision and a schema error to the pointer revision (src/lib.rs:76-83) |

## Left out

- HTTP transport: building the client, sending the request and the 1-second timeout of `src/lib.rs:72`. The status check of `error_for_status_ref` is modelled as `Http.IsErrorStatus` (400 to 599), together with the order of the decision: a failed send, then the status, then the body read, then decoding. A timed-out request is a `Transport` error like any other failed send.
- JSON text parsing: the model starts from a parsed value, and text that does not parse is the abstract input `Malformed`, a schema error. Which texts parse depends on the revision, and the model does not capture that. A typed record skips an unknown member without checking its number range, its `\u` escapes or its nesting depth. The whole-document parse at `src/lib.rs:77` checks all three. So a success body with an extra member such as `"x": 1e400` is read by `src/weatherstack.rs:67-80` and refused by `src/lib.rs:77`. The `Revisions` lemmas therefore hold only for documents that both revisions parse. Other parsing details, such as the range of integer literals and "-0", are not modelled either.
- JSON pointer text: a pointer is given as its reference tokens. Splitting "/a/b/0" at '/' and the "~0"/"~1" escapes are not modelled; the four pointers used contain neither.
- Floating point: temperatures are real numbers. f32/f64 rounding, whether 273.15 is representable, and the `i16` to `f32` widening are not modelled. The example equalities are proved over the reals, not under IEEE arithmetic.
- Weather.Render: the number formatting of `src/weather.rs:18` is the parameter `show`; the model says where its text appears, not what it is.
- Error messages: the "bad response" context of `src/lib.rs:78` and the raw-JSON context of `src/weatherstack.rs:71` are not modelled; errors keep only their kind and the vendor's `info`.
- WeatherStack.Deserialize: in the source, both the vendor error and the empty-description error are plain messages, so a vendor `info` of "invalid API response" cannot be told apart from the empty-description error. The model tags the two as different kinds.
- The test data file `tests/data/weatherstack.json` is not part of this model. `Sample.Payload` builds a body with the fields the tests check ("London", "United Kingdom", 11, ["Sunny"]) and leaves its other fields as parameters.
- The vendor's error envelope in `Sample.ErrorPayload` is a reconstruction of the vendor's documented invalid-key response.
- The mock server's checks of `src/lib.rs:163-176` (method, path, query parameters) are not modelled. `Lib.LookupAgainstServer` takes the server as a client that answers the built request.
- The base URL override in the test at `src/lib.rs:174` is modelled by allowing any `baseUrl` in `Lib.LookupAgainstServer`.
- `src/main.rs` (argument parsing, joining the location words, printing, exit codes) and `tests/integration.rs` are not part of this model.
