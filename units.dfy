/** The one unit conversion of the weather screen: a Celsius reading of the
    secondary provider is converted before it is averaged with a Fahrenheit
    reading. Temperatures are exact reals, an idealisation of Python floats. */
module Units {

  /** `c * 9/5 + 32`: below freezing in Celsius is below 32 in Fahrenheit,
      and converting back gives the Celsius reading again. */
  function CelsiusToFahrenheit(c: real): (f: real)
    ensures c < 0.0 <==> f < 32.0
    ensures FahrenheitToCelsius(f) == c
  {
    c * 9.0 / 5.0 + 32.0
  }

  /** Its inverse, used to state that the conversion loses nothing; the
      program itself never converts this way. */
  function FahrenheitToCelsius(f: real): (c: real)
  {
    (f - 32.0) * 5.0 / 9.0
  }

  /** Water freezes at 32 °F and boils at 212 °F; 20 °C is 68 °F. */
  lemma FixedPoints()
    ensures CelsiusToFahrenheit(0.0) == 32.0
    ensures CelsiusToFahrenheit(100.0) == 212.0
    ensures CelsiusToFahrenheit(20.0) == 68.0
    ensures CelsiusToFahrenheit(-40.0) == -40.0
  {
  }

  /** Warmer in Celsius is warmer in Fahrenheit, and the scale stretches by 9/5. */
  lemma StrictlyIncreasing(a: real, b: real)
    requires a < b
    ensures CelsiusToFahrenheit(a) < CelsiusToFahrenheit(b)
    ensures CelsiusToFahrenheit(b) - CelsiusToFahrenheit(a) == (b - a) * 9.0 / 5.0
  {
  }

  /** Converting there and back loses nothing. */
  lemma RoundTrip(c: real, f: real)
    ensures FahrenheitToCelsius(CelsiusToFahrenheit(c)) == c
    ensures CelsiusToFahrenheit(FahrenheitToCelsius(f)) == f
  {
  }
}
