/**
 * The model of the MVC design: the two affine maps between degrees Fahrenheit
 * and degrees Celsius. Temperatures are exact reals, so the two maps are exact
 * inverses of each other (the source computes them in IEEE-754 doubles).
 */
module ConvertTemperature {

  /** Fahrenheit reading of the freezing point of water. */
  const FarenheitOffset: real := 32.0

  /** Size of one Fahrenheit degree measured in Celsius degrees. */
  const CelsiusToFarenheitRatio: real := 5.0 / 9.0

  /** Celsius equivalent of a Fahrenheit temperature; zero exactly at the freezing point. */
  function ConvertFarenheitToCelsius(degreesF: real): (degreesC: real)
    ensures degreesC == 0.0 <==> degreesF == FarenheitOffset
  {
    (degreesF - FarenheitOffset) * CelsiusToFarenheitRatio
  }

  /** Fahrenheit equivalent of a Celsius temperature: the inverse of ConvertFarenheitToCelsius. */
  function ConvertCelsiusToFarenheit(degreesC: real): (degreesF: real)
    ensures ConvertFarenheitToCelsius(degreesF) == degreesC
  {
    degreesC / CelsiusToFarenheitRatio + FarenheitOffset
  }

  /** Going Fahrenheit to Celsius and back gives the original Fahrenheit value. */
  lemma FarenheitRoundTrip(degreesF: real)
    ensures ConvertCelsiusToFarenheit(ConvertFarenheitToCelsius(degreesF)) == degreesF
  {
  }

  /** The freezing point of water is 32 degrees F and 0 degrees C in both directions. */
  lemma FreezingPoint()
    ensures ConvertFarenheitToCelsius(32.0) == 0.0
    ensures ConvertCelsiusToFarenheit(0.0) == 32.0
  {
  }

  /** Fahrenheit to Celsius is strictly increasing. */
  lemma FarenheitToCelsiusIncreasing(a: real, b: real)
    ensures a < b <==> ConvertFarenheitToCelsius(a) < ConvertFarenheitToCelsius(b)
  {
  }

  /** Celsius to Fahrenheit is strictly increasing. */
  lemma CelsiusToFarenheitIncreasing(a: real, b: real)
    ensures a < b <==> ConvertCelsiusToFarenheit(a) < ConvertCelsiusToFarenheit(b)
  {
  }
}
