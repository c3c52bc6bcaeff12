/** A temperature stored as Kelvin, built from and read in Celsius or
    Fahrenheit. Arithmetic is over the reals: no floating-point rounding. */
module Temperature {

  /** 0 degrees Celsius, in Kelvin. */
  const ZERO_CENTIGRADE: real := 273.15

  datatype Unit = Celsius | Fahrenheit

  /** The Kelvin value of `val` degrees in unit `u`. */
  function ToKelvin(u: Unit, val: real): (k: real)
    ensures FromKelvin(u, k) == val
  {
    match u
    case Celsius => val + ZERO_CENTIGRADE
    case Fahrenheit => (val - 32.0) / 1.8 + 273.15
  }

  /** The reading in unit `u` of `k` Kelvin: the freezing point of water
      reads 0 in Celsius and 32 in Fahrenheit, and a reading lies above
      those marks exactly when `k` lies above the freezing point. */
  function FromKelvin(u: Unit, k: real): (val: real)
    ensures k == ZERO_CENTIGRADE ==> val == (if u == Celsius then 0.0 else 32.0)
    ensures k > ZERO_CENTIGRADE <==> val > (if u == Celsius then 0.0 else 32.0)
  {
    match u
    case Celsius => k - ZERO_CENTIGRADE
    case Fahrenheit => (k - 273.15) * 1.8 + 32.0
  }

  /** Reading a Kelvin value in a unit and converting it back is exact. */
  lemma KelvinRoundTrip(u: Unit, k: real)
    ensures ToKelvin(u, FromKelvin(u, k)) == k
  {
  }

  /** The canonical value is Kelvin. */
  datatype Temperature = Temperature(kelvin: real)
  {
    /** The reading of this temperature in unit `u`. */
    function To(u: Unit): (val: real)
      ensures ToKelvin(u, val) == kelvin
    {
      KelvinRoundTrip(u, kelvin);
      FromKelvin(u, kelvin)
    }
  }

  /** The temperature of `val` degrees in unit `u`; it reads back as `val`
      in that unit. */
  function From(u: Unit, val: real): (t: Temperature)
    ensures t.To(u) == val
  {
    Temperature(ToKelvin(u, val))
  }

  /** A Celsius value is stored as itself plus 273.15. */
  lemma CelsiusStoredAsKelvin(c: real)
    ensures From(Celsius, c).kelvin == c + 273.15
  {
  }

  /** Every temperature's two readings obey F = C * 1.8 + 32. */
  lemma ReadingsAgree(t: Temperature)
    ensures t.To(Fahrenheit) == t.To(Celsius) * 1.8 + 32.0
  {
  }

  /** Routed through Kelvin, a Celsius value reads in Fahrenheit as c * 1.8 + 32. */
  lemma CelsiusReadInFahrenheit(c: real)
    ensures From(Celsius, c).To(Fahrenheit) == c * 1.8 + 32.0
  {
    ReadingsAgree(From(Celsius, c));
  }

  /** And a Fahrenheit value reads in Celsius as (f - 32) / 1.8. */
  lemma FahrenheitReadInCelsius(f: real)
    ensures From(Fahrenheit, f).To(Celsius) == (f - 32.0) / 1.8
  {
  }

  /** 0 degrees Celsius reads as 0 degrees Celsius and as 32 degrees Fahrenheit. */
  lemma FreezingPoint()
    ensures From(Celsius, 0.0).To(Celsius) == 0.0
    ensures From(Celsius, 0.0).To(Fahrenheit) == 32.0
  {
  }

  /** 212 degrees Fahrenheit reads as itself and as 100 degrees Celsius. */
  lemma BoilingPoint()
    ensures From(Fahrenheit, 212.0).To(Fahrenheit) == 212.0
    ensures From(Fahrenheit, 212.0).To(Celsius) == 100.0
  {
  }

  /** Readings preserve order: a warmer temperature reads higher in every unit. */
  lemma ReadingsMonotone(t1: Temperature, t2: Temperature, u: Unit)
    requires t1.kelvin < t2.kelvin
    ensures t1.To(u) < t2.To(u)
  {
  }
}
