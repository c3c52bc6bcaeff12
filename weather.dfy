/** The weather record, its one-line rendering, and the provider capability. */
module Weather {
  import opened Results
  import opened Temperature

  datatype Weather = Weather(location: string, temperature: Temperature, summary: string)

  /** The unit mark after the number: the masculine ordinal sign, then C. */
  const CELSIUS_MARK: string := "\U{00BA}C"

  /** "<summary> <celsius>ºC (<location>)". The number is always the
      Celsius reading; `show` is the number-to-text rule, a parameter of
      the model. */
  function Render(w: Weather, show: real -> string): (s: string)
    ensures |s| == |w.summary| + |show(w.temperature.To(Celsius))| + |w.location| + 6
  {
    w.summary + " " + show(w.temperature.To(Celsius)) + CELSIUS_MARK + " (" + w.location + ")"
  }

  lemma RenderStartsWithSummary(w: Weather, show: real -> string)
    ensures |w.summary| < |Render(w, show)|
    ensures Render(w, show)[..|w.summary|] == w.summary
    ensures Render(w, show)[|w.summary|] == ' '
  {
  }

  lemma RenderEndsWithLocation(w: Weather, show: real -> string)
    ensures |w.location| + 2 <= |Render(w, show)|
    ensures Render(w, show)[|Render(w, show)| - |w.location| - 2..] == "(" + w.location + ")"
  {
    var s := Render(w, show);
    assert s == (w.summary + " " + show(w.temperature.To(Celsius)) + CELSIUS_MARK + " ") + ("(" + w.location + ")");
  }

  /** After the summary and a space comes the Celsius reading, then the mark. */
  lemma RenderShowsCelsius(w: Weather, show: real -> string)
    ensures var n, shown := |w.summary| + 1, show(w.temperature.To(Celsius));
            Render(w, show)[n..n + |shown|] == shown
            && Render(w, show)[n + |shown|..n + |shown| + 4] == CELSIUS_MARK + " ("
  {
    var shown := show(w.temperature.To(Celsius));
    var s := Render(w, show);
    var n := |w.summary| + 1;
    assert s == (w.summary + " ") + shown + (CELSIUS_MARK + " (") + (w.location + ")");
  }

  /** A temperature built from Celsius c shows show(c), whatever its stored
      Kelvin value; one built from Fahrenheit f shows show((f - 32) / 1.8). */
  lemma RenderedNumberIsCelsius(location: string, summary: string, v: real, show: real -> string)
    ensures Render(Weather(location, From(Celsius, v), summary), show)
         == summary + " " + show(v) + CELSIUS_MARK + " (" + location + ")"
    ensures Render(Weather(location, From(Fahrenheit, v), summary), show)
         == summary + " " + show((v - 32.0) / 1.8) + CELSIUS_MARK + " (" + location + ")"
  {
    FahrenheitReadInCelsius(v);
  }

  /** Anything that answers "what is the weather at this location" with a
      weather record or an error. */
  type Provider = string -> Result<Weather>
}
