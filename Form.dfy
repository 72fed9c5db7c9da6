/**
 * The form view (TemperatureGUI) and the controller object that drives it
 * (TemperatureController). Each holds a reference to the other, so both
 * classes live in this one module. Swing layout is not modelled: the view is
 * the state it shows, namely the two field texts, the two fields' error
 * colours, the two conversion buttons' highlight, the status label and the
 * stored conversion message.
 */
module Form {
  import opened NumberText
  import opened Decisions

  const EmptyString: string := ""

  /** The components the view listens to for focus events. */
  datatype TextField = FarenheitTemperature | CelsiusTemperature

  /** The components the view listens to for action events. */
  datatype Button = ToDegreesC | ToDegreesF | Quit

  /** A snapshot of everything the view shows or stores. */
  datatype ViewState = ViewState(
    farenheitText: string,
    celsiusText: string,
    farenheitError: bool,     // Fahrenheit text drawn in the error colour (red)
    celsiusError: bool,       // Celsius text drawn in the error colour (red)
    toDegreesCActive: bool,   // toDegreesC button in the ACTIVE colour (green)
    toDegreesFActive: bool,   // toDegreesF button in the ACTIVE colour (green)
    labelText: string,        // text of conversionLabel
    conversionMessage: string)

  /**
   * The pre-validation of actionPerformed: the text is empty or matches
   * INVALID_NUMBER_REXP. Text that passes is over the number alphabet.
   */
  predicate FailsFilter(input: string)
    ensures !FailsFilter(input) <==> input != [] && AllNumberChars(input)
  {
    input == [] || MatchesInvalidNumber(input)
  }

  /** The outcome of pressing toDegreesC with the given Fahrenheit text. */
  function ToDegreesCPress(inputTemperature: string): (o: Outcome)
    ensures o == Rejected(InputError) <==> FailsFilter(inputTemperature)
  {
    if FailsFilter(inputTemperature) then Rejected(InputError) else DecideToCelsius(inputTemperature)
  }

  /** The outcome of pressing toDegreesF with the given Celsius text. */
  function ToDegreesFPress(inputTemperature: string): (o: Outcome)
    ensures o == Rejected(InputError) <==> FailsFilter(inputTemperature)
  {
    if FailsFilter(inputTemperature) then Rejected(InputError) else DecideToFarenheit(inputTemperature)
  }

  /** Empty text and "12a3" are input errors in both directions. */
  lemma InputErrorExamples()
    ensures ToDegreesCPress("") == Rejected(InputError) && ToDegreesFPress("") == Rejected(InputError)
    ensures ToDegreesCPress("12a3") == Rejected(InputError) && ToDegreesFPress("12a3") == Rejected(InputError)
  {
  }

  class TemperatureGUI {
    var farenheitText: string
    var celsiusText: string
    var farenheitError: bool
    var celsiusError: bool
    var toDegreesCActive: bool
    var toDegreesFActive: bool
    var labelText: string
    var conversionMessage: string
    const tControl: TemperatureController

    function State(): ViewState
      reads this
    {
      ViewState(farenheitText, celsiusText, farenheitError, celsiusError,
                toDegreesCActive, toDegreesFActive, labelText, conversionMessage)
    }

    /** The controller this view forwards to drives this same view. */
    ghost predicate Valid()
      reads this, tControl
    {
      tControl.view == this
    }

    /** The state right after construction: empty texts and message, no error, no highlight. */
    constructor (control: TemperatureController)
      ensures tControl == control
      ensures State() == ViewState(EmptyString, EmptyString, false, false, false, false, EmptyString, EmptyString)
    {
      farenheitText, celsiusText := EmptyString, EmptyString;
      farenheitError, celsiusError := false, false;
      toDegreesCActive, toDegreesFActive := false, false;
      conversionMessage := EmptyString;
      labelText := conversionMessage;
      tControl := control;
    }

    /** Losing focus has no effect. */
    method FocusLost(source: TextField)
      ensures State() == old(State())
    {
    }

    /**
     * Gaining focus on a field clears both texts, clears that field's error
     * colour, highlights the button converting from it (and only that one)
     * and blanks the label. The stored message is kept.
     */
    method FocusGained(source: TextField)
      modifies this
      ensures State() == old(State()).(
                farenheitText := EmptyString,
                celsiusText := EmptyString,
                farenheitError := source != FarenheitTemperature && old(farenheitError),
                celsiusError := source != CelsiusTemperature && old(celsiusError),
                toDegreesCActive := source == FarenheitTemperature,
                toDegreesFActive := source == CelsiusTemperature,
                labelText := EmptyString)
    {
      if source == FarenheitTemperature {
        ClearTemperatureTextFields();
        ResetFarenheitTextColor();
        ActiveCInactiveFButton();
      } else {
        ClearTemperatureTextFields();
        ResetCelsiusTextColor();
        ActiveFInactiveCButton();
      }
      labelText := EmptyString;
    }

    /**
     * A conversion press filters the source text, hands it to the controller
     * only if it passes, then shows the stored message in the label and turns
     * both buttons back to the default colour. The source text never changes;
     * the destination shows the formatted result or is cleared; an error
     * colours the source field; the destination colour is reset only when the
     * controller was called. Quit only asks the controller to quit.
     */
    method ActionPerformed(source: Button)
      requires Valid()
      modifies this, tControl`quitRequested
      ensures Valid()
      ensures source == ToDegreesC ==>
                var o := ToDegreesCPress(old(farenheitText));
                && State() == old(State()).(
                     celsiusText := if o.Converted? then tControl.format(o.value) else EmptyString,
                     farenheitError := o.Rejected? || old(farenheitError),
                     celsiusError := o == Rejected(InputError) && old(celsiusError),
                     toDegreesCActive := false,
                     toDegreesFActive := false,
                     labelText := OutcomeMessage(o, ToCelsiusMessage),
                     conversionMessage := OutcomeMessage(o, ToCelsiusMessage))
                && tControl.quitRequested == old(tControl.quitRequested)
      ensures source == ToDegreesF ==>
                var o := ToDegreesFPress(old(celsiusText));
                && State() == old(State()).(
                     farenheitText := if o.Converted? then tControl.format(o.value) else EmptyString,
                     celsiusError := o.Rejected? || old(celsiusError),
                     farenheitError := o == Rejected(InputError) && old(farenheitError),
                     toDegreesCActive := false,
                     toDegreesFActive := false,
                     labelText := OutcomeMessage(o, ToFarenheitMessage),
                     conversionMessage := OutcomeMessage(o, ToFarenheitMessage))
                && tControl.quitRequested == old(tControl.quitRequested)
      ensures source == Quit ==> State() == old(State()) && tControl.quitRequested
    {
      if source == ToDegreesC {
        var inputTemperature := farenheitText;
        if inputTemperature == [] || MatchesInvalidNumber(inputTemperature) {
          FlagFarenheitError(Message(InputError));
        } else {
          tControl.HandleToDegreesCButton(inputTemperature);
        }
        labelText := conversionMessage;
        InactiveCInactiveFButtons();
      } else if source == ToDegreesF {
        var inputTemperature := celsiusText;
        if inputTemperature == [] || MatchesInvalidNumber(inputTemperature) {
          FlagCelsiusError(Message(InputError));
        } else {
          tControl.HandleToDegreesFButton(inputTemperature);
        }
        labelText := conversionMessage;
        InactiveCInactiveFButtons();
      } else {
        tControl.HandleQuitButton();
      }
    }

    method ActiveCInactiveFButton()
      modifies this
      ensures State() == old(State()).(toDegreesCActive := true, toDegreesFActive := false)
    {
      toDegreesCActive := true;
      toDegreesFActive := false;
    }

    method ActiveFInactiveCButton()
      modifies this
      ensures State() == old(State()).(toDegreesCActive := false, toDegreesFActive := true)
    {
      toDegreesFActive := true;
      toDegreesCActive := false;
    }

    method InactiveCInactiveFButtons()
      modifies this
      ensures State() == old(State()).(toDegreesCActive := false, toDegreesFActive := false)
    {
      toDegreesCActive := false;
      toDegreesFActive := false;
    }

    method ClearTemperatureTextFields()
      modifies this
      ensures State() == old(State()).(farenheitText := EmptyString, celsiusText := EmptyString)
    {
      celsiusText := EmptyString;
      farenheitText := EmptyString;
    }

    method UpdateCelsiusTemperatureString(newTemperature: string)
      modifies this
      ensures State() == old(State()).(celsiusText := newTemperature)
    {
      celsiusText := newTemperature;
    }

    method UpdateFarenheitTemperatureString(newTemperature: string)
      modifies this
      ensures State() == old(State()).(farenheitText := newTemperature)
    {
      farenheitText := newTemperature;
    }

    /** Clear the Celsius text, store the message, colour the Fahrenheit text as an error. */
    method FlagFarenheitError(errorMessage: string)
      modifies this
      ensures State() == old(State()).(
                celsiusText := EmptyString, conversionMessage := errorMessage, farenheitError := true)
    {
      UpdateCelsiusTemperatureString(EmptyString);
      UpdateConversionMessage(errorMessage);
      farenheitError := true;
    }

    /** Clear the Fahrenheit text, store the message, colour the Celsius text as an error. */
    method FlagCelsiusError(errorMessage: string)
      modifies this
      ensures State() == old(State()).(
                farenheitText := EmptyString, conversionMessage := errorMessage, celsiusError := true)
    {
      UpdateFarenheitTemperatureString(EmptyString);
      UpdateConversionMessage(errorMessage);
      celsiusError := true;
    }

    method ResetFarenheitTextColor()
      modifies this
      ensures State() == old(State()).(farenheitError := false)
    {
      farenheitError := false;
    }

    method ResetCelsiusTextColor()
      modifies this
      ensures State() == old(State()).(celsiusError := false)
    {
      celsiusError := false;
    }

    /** Store the message; the labelText shows it only at the end of a button press. */
    method UpdateConversionMessage(message: string)
      modifies this
      ensures State() == old(State()).(conversionMessage := message)
    {
      conversionMessage := message;
    }
  }

  class TemperatureController {
    /** The view; only null while the constructor is wiring the two objects together. */
    var view: TemperatureGUI?
    /** String.format("%4.1f", _), which the model leaves uninterpreted. */
    const format: real -> string
    /** Set instead of calling System.exit(0). */
    var quitRequested: bool

    ghost predicate Valid()
      reads this
    {
      view != null && view.tControl == this
    }

    /** Builds the controller and its view, each referring to the other. */
    constructor (format: real -> string)
      ensures Valid() && fresh(view) && view.Valid()
      ensures this.format == format && !quitRequested
      ensures view.State() == ViewState(EmptyString, EmptyString, false, false, false, false, EmptyString, EmptyString)
    {
      this.format := format;
      quitRequested := false;
      view := null;
      new;
      view := new TemperatureGUI(this);
    }

    /**
     * Reset the Celsius colour first; then show the converted value and the
     * success message, or flag the Fahrenheit field with the error. The
     * Fahrenheit text is never touched.
     */
    method HandleToDegreesCButton(inputTempFarenheit: string)
      requires Valid()
      requires AllNumberChars(inputTempFarenheit)
      modifies view
      ensures var o := DecideToCelsius(inputTempFarenheit);
              view.State() == old(view.State()).(
                celsiusError := false,
                celsiusText := if o.Converted? then format(o.value) else EmptyString,
                farenheitError := o.Rejected? || old(view.farenheitError),
                conversionMessage := OutcomeMessage(o, ToCelsiusMessage))
    {
      view.ResetCelsiusTextColor();
      match Parse(inputTempFarenheit)
      case None =>
        view.FlagFarenheitError(Message(NumberFormatError));
      case Some(degreesF) =>
        var degreesC := ConvertTemperature.ConvertFarenheitToCelsius(degreesF);
        if degreesC >= AbsoluteZero {
          view.UpdateCelsiusTemperatureString(format(degreesC));
          view.UpdateConversionMessage(ToCelsiusMessage);
        } else {
          view.FlagFarenheitError(Message(BelowAbsoluteZeroError));
        }
    }

    /**
     * Reset the Fahrenheit colour first; then check the parsed Celsius input
     * against absolute zero, and show the converted value and the success
     * message, or flag the Celsius field with the error. The Celsius text is
     * never touched.
     */
    method HandleToDegreesFButton(inputTempCelsius: string)
      requires Valid()
      requires AllNumberChars(inputTempCelsius)
      modifies view
      ensures var o := DecideToFarenheit(inputTempCelsius);
              view.State() == old(view.State()).(
                farenheitError := false,
                farenheitText := if o.Converted? then format(o.value) else EmptyString,
                celsiusError := o.Rejected? || old(view.celsiusError),
                conversionMessage := OutcomeMessage(o, ToFarenheitMessage))
    {
      view.ResetFarenheitTextColor();
      match Parse(inputTempCelsius)
      case None =>
        view.FlagCelsiusError(Message(NumberFormatError));
      case Some(degreesC) =>
        if degreesC >= AbsoluteZero {
          var degreesF := ConvertTemperature.ConvertCelsiusToFarenheit(degreesC);
          view.UpdateFarenheitTemperatureString(format(degreesF));
          view.UpdateConversionMessage(ToFarenheitMessage);
        } else {
          view.FlagCelsiusError(Message(BelowAbsoluteZeroError));
        }
    }

    /** Records the request to end the program; nothing else changes. */
    method HandleQuitButton()
      modifies this`quitRequested
      ensures quitRequested
    {
      quitRequested := true;
    }
  }
}
