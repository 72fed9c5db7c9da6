/**
 * What the controller decides for one conversion request, as pure functions
 * of the text it is handed: a converted temperature or one of the closed set
 * of input errors. The controller class in module Form applies these
 * decisions to the view.
 */
module Decisions {
  import opened ConvertTemperature
  import opened NumberText

  /** Absolute zero in degrees Celsius: no accepted temperature lies below it. */
  const AbsoluteZero: real := -273.15

  /** Absolute zero in degrees Fahrenheit (ConvertCelsiusToFarenheit(AbsoluteZero)). */
  const AbsoluteZeroFarenheit: real := -459.67

  const ToCelsiusMessage: string := "Converted to Celsius"
  const ToFarenheitMessage: string := "Converted to Farenheit"

  /** The errors a conversion press can end in; InputError is raised by the view's filter. */
  datatype Error = InputError | NumberFormatError | BelowAbsoluteZeroError

  /** The status text shown for each error. */
  function Message(e: Error): (m: string)
    ensures m != ToCelsiusMessage && m != ToFarenheitMessage
  {
    match e
    case InputError => "Input Error"
    case NumberFormatError => "Number Format Error"
    case BelowAbsoluteZeroError => "Temperature < Absolute Zero Error"
  }

  /** Different errors show different texts, so the status text identifies the error. */
  lemma MessagesDistinct(e: Error, e': Error)
    ensures Message(e) == Message(e') ==> e == e'
  {
  }

  datatype Outcome = Converted(value: real) | Rejected(error: Error)

  /** The status text left by an outcome: the success text, or the error's text. */
  function OutcomeMessage(o: Outcome, success: string): string {
    if o.Converted? then success else Message(o.error)
  }

  lemma AbsoluteZeroInFarenheit()
    ensures ConvertCelsiusToFarenheit(AbsoluteZero) == AbsoluteZeroFarenheit
    ensures ConvertFarenheitToCelsius(AbsoluteZeroFarenheit) == AbsoluteZero
  {
  }

  /**
   * handleToDegreesCButton after the parse: convert, then check the converted
   * Celsius value. Equivalently the Fahrenheit input is checked against -459.67.
   */
  function ToCelsius(degreesF: real): (o: Outcome)
    ensures o.Converted? <==> degreesF >= AbsoluteZeroFarenheit
    ensures o.Converted? ==> o.value >= AbsoluteZero && ConvertCelsiusToFarenheit(o.value) == degreesF
    ensures o.Rejected? ==> o.error == BelowAbsoluteZeroError
  {
    var degreesC := ConvertFarenheitToCelsius(degreesF);
    if degreesC >= AbsoluteZero then Converted(degreesC) else Rejected(BelowAbsoluteZeroError)
  }

  /**
   * handleToDegreesFButton after the parse: check the Celsius input, then
   * convert. The result is never below absolute zero in Fahrenheit.
   */
  function ToFarenheit(degreesC: real): (o: Outcome)
    ensures o.Converted? <==> degreesC >= AbsoluteZero
    ensures o.Converted? ==> o.value >= AbsoluteZeroFarenheit && ConvertFarenheitToCelsius(o.value) == degreesC
    ensures o.Rejected? ==> o.error == BelowAbsoluteZeroError
  {
    if degreesC >= AbsoluteZero then Converted(ConvertCelsiusToFarenheit(degreesC))
    else Rejected(BelowAbsoluteZeroError)
  }

  /**
   * The two directions check the same Celsius-domain bound: a Celsius value is
   * accepted for conversion to Fahrenheit exactly when its Fahrenheit equivalent
   * is accepted for conversion to Celsius, and then the two conversions undo
   * each other, so a round trip never meets the absolute-zero error.
   */
  lemma AbsoluteZeroChecksAgree(degreesC: real)
    ensures ToFarenheit(degreesC).Converted? <==> ToCelsius(ConvertCelsiusToFarenheit(degreesC)).Converted?
    ensures ToFarenheit(degreesC).Converted? ==>
              ToCelsius(ToFarenheit(degreesC).value) == Converted(degreesC)
  {
  }

  /** The same agreement seen from the Fahrenheit side. */
  lemma AbsoluteZeroChecksAgreeFromFarenheit(degreesF: real)
    ensures ToCelsius(degreesF).Converted? <==> ToFarenheit(ConvertFarenheitToCelsius(degreesF)).Converted?
    ensures ToCelsius(degreesF).Converted? ==>
              ToFarenheit(ToCelsius(degreesF).value) == Converted(degreesF)
  {
  }

  /**
   * handleToDegreesCButton: parse the Fahrenheit text (NumberFormatException
   * becomes NumberFormatError), then ToCelsius. The input error is never its outcome.
   */
  function DecideToCelsius(inputTempFarenheit: string): (o: Outcome)
    requires AllNumberChars(inputTempFarenheit)
    ensures o != Rejected(InputError)
    ensures o == Rejected(NumberFormatError) <==> !IsDecimalLiteral(inputTempFarenheit)
    ensures o == Rejected(BelowAbsoluteZeroError) <==>
              IsDecimalLiteral(inputTempFarenheit) && Parse(inputTempFarenheit).value < AbsoluteZeroFarenheit
    ensures o.Converted? ==>
              o.value >= AbsoluteZero && ConvertCelsiusToFarenheit(o.value) == Parse(inputTempFarenheit).value
  {
    match Parse(inputTempFarenheit)
    case None => Rejected(NumberFormatError)
    case Some(degreesF) => ToCelsius(degreesF)
  }

  /**
   * handleToDegreesFButton: parse the Celsius text, then ToFarenheit; the
   * absolute-zero check is on the parsed input itself.
   */
  function DecideToFarenheit(inputTempCelsius: string): (o: Outcome)
    requires AllNumberChars(inputTempCelsius)
    ensures o != Rejected(InputError)
    ensures o == Rejected(NumberFormatError) <==> !IsDecimalLiteral(inputTempCelsius)
    ensures o == Rejected(BelowAbsoluteZeroError) <==>
              IsDecimalLiteral(inputTempCelsius) && Parse(inputTempCelsius).value < AbsoluteZero
    ensures o.Converted? ==>
              o.value >= AbsoluteZeroFarenheit && ConvertFarenheitToCelsius(o.value) == Parse(inputTempCelsius).value
  {
    match Parse(inputTempCelsius)
    case None => Rejected(NumberFormatError)
    case Some(degreesC) => ToFarenheit(degreesC)
  }

  /** "98.6" degrees F converts to exactly 37 degrees C. */
  lemma BodyTemperatureExample()
    ensures DecideToCelsius("98.6") == Converted(37.0)
  {
  }

  /** "-273.16" degrees C is below absolute zero: an error, not a conversion. */
  lemma BelowAbsoluteZeroExample()
    ensures DecideToFarenheit("-273.16") == Rejected(BelowAbsoluteZeroError)
  {
    var s := "-273.16";
    var b := "273.16";
    assert Unsigned(s) == b;
    assert PointIndex(b) == 3 by {
      assert PointIndex(".16") == 0;
      assert PointIndex("3.16") == 1;
      assert PointIndex("73.16") == 2;
    }
    assert WholeDigits(b) == "273";
    assert FractionDigits(b) == "16";
    assert DigitsValue("273") == 273 by {
      assert "273"[..2] == "27";
      assert "27"[..1] == "2";
      assert "2"[..0] == "";
    }
    assert DigitsValue("16") == 16 by {
      assert "16"[..1] == "1";
      assert "1"[..0] == "";
    }
    assert Pow10(2) == 100;
    assert FractionValue("16") == 0.16;
    assert Parse(s) == Some(-273.16);
  }

  /** A lone point passes the view's filter but is not a number. */
  lemma NumberFormatExample()
    ensures DecideToCelsius(".") == Rejected(NumberFormatError)
  {
  }
}
