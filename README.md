# Temperature converter form, modelled in Dafny

This project models CS1B_Temperature_GUI, a small Swing form. The form converts a temperature between degrees Fahrenheit and degrees Celsius. It has three layers:

- **ConvertTemperature** (`ConvertTemperature.dfy`): the two affine conversion formulas, computed over exact reals.
- **Number text** (`NumberText.dfy`): two pieces of text handling.
  - The view's character filter `INVALID_NUMBER_REXP`, applied with `String.matches`.
  - `Double.parseDouble`, modelled on the strings that filter lets through.
- **Controller decisions** (`Decisions.dfy`): what `handleToDegreesCButton` and `handleToDegreesFButton` decide for a given input text. Each decision ends in one of three outcomes:
  - a converted value;
  - "Number Format Error";
  - "Temperature < Absolute Zero Error".

  The view adds a fourth outcome, "Input Error".
- **Form** (`Form.dfy`): the view `TemperatureGUI` and the controller object `TemperatureController`, as two classes that refer to each other.
  - The view is a state machine. Its state is the two field texts, the two fields' error colours, the highlight of the two conversion buttons, the status label and the stored `conversionMessage`.
  - Every event handler and every view update is a method. Its postcondition gives the complete new state, as an update of the old snapshot `State()`.
  - The controller's handlers apply the decisions above to the view, making the same calls in the same order as the source.

Temperatures are Dafny `real`s, so the two conversions are exact inverses. Both directions check the Celsius-domain value against absolute zero:
- Converting to Celsius checks the result.
- Converting to Fahrenheit checks the input.

Over reals these two checks accept exactly the same temperatures (`AbsoluteZeroChecksAgree`).

Gaining focus clears both field texts but resets only the focused field's error colour (`TemperatureGUI.java:55-66`); the other field keeps its colour.

## Model

| member | source | states |
|---|---|---|
| `ConvertTemperature.ConvertFarenheitToCelsius` | CS1B_Temperature_GUI/src/ConvertTemperature.java:16-18 | the Celsius result is zero exactly when the input is 32 degrees F |
| `ConvertTemperature.ConvertCelsiusToFarenheit` | CS1B_Temperature_GUI/src/ConvertTemperature.java:24-26 | converting the result back to Celsius gives the input: it is the inverse of Fahrenheit-to-Celsius |
| `ConvertTemperature.FarenheitRoundTrip` | CS1B_Temperature_GUI/src/ConvertTemperature.java:16-26 | Fahrenheit to Celsius and back returns the original value |
| `ConvertTemperature.FreezingPoint` | CS1B_Temperature_GUI/src/ConvertTemperature.java:9-26 | 32 F maps to 0 C and 0 C maps to 32 F |
| `ConvertTemperature.FarenheitToCelsiusIncreasing` | CS1B_Temperature_GUI/src/ConvertTemperature.java:16-18 | a < b exactly when F-to-C(a) < F-to-C(b) |
| `ConvertTemperature.CelsiusToFarenheitIncreasing` | CS1B_Temperature_GUI/src/ConvertTemperature.java:24-26 | a < b exactly when C-to-F(a) < C-to-F(b) |
| `NumberText.MatchesInvalidNumber` | CS1B_Temperature_GUI/src/TemperatureGUI.java:16 | the pattern matches exactly when some character is outside {+, -, ., 0-9}, i.e. not all characters are number characters |
| `NumberText.Parse` | CS1B_Temperature_GUI/src/TemperatureController.java:51 | parsing succeeds exactly on decimal literals (optional sign, digits with at most one point, at least one digit); a leading '-' gives a value <= 0, otherwise >= 0; the digits before the point are the integer part of the magnitude; the magnitude is all the digits read as one integer divided by 10 to the number of digits after the point |
| `NumberText.DigitsValueAppend` | CS1B_Temperature_GUI/src/TemperatureController.java:51 | the value of digits a followed by digits b is a's value shifted left by the length of b plus b's value |
| `NumberText.MagnitudeScaled` | CS1B_Temperature_GUI/src/TemperatureController.java:51 | whole digits plus fraction digits equal all the digits read as one integer over 10 to the number of fraction digits |
| `NumberText.DecimalLiteralSplit` | CS1B_Temperature_GUI/src/TemperatureController.java:51 | a filtered string is a decimal literal exactly when the parts before and after its first point are all digits and not both empty |
| `NumberText.DecimalLiteralsPassFilter` | CS1B_Temperature_GUI/src/TemperatureGUI.java:81 | every decimal literal is non-empty and passes the character filter; nothing about its characters is assumed beyond the literal grammar |
| `NumberText.FilterLooserThanParse` | CS1B_Temperature_GUI/src/TemperatureGUI.java:16 | "--.." and "." pass the filter yet fail to parse |
| `Decisions.Message` | CS1B_Temperature_GUI/src/TemperatureController.java:15-16 | the controller's two error texts, together with the view's "Input Error" (TemperatureGUI.java:18), are each different from both success texts |
| `Decisions.MessagesDistinct` | CS1B_Temperature_GUI/src/TemperatureController.java:15-16 | distinct errors show distinct texts |
| `Decisions.AbsoluteZeroInFarenheit` | CS1B_Temperature_GUI/src/TemperatureController.java:14 | -273.15 C is -459.67 F, and back |
| `Decisions.ToCelsius` | CS1B_Temperature_GUI/src/TemperatureController.java:52-58 | converts exactly when the Fahrenheit input is >= -459.67; a converted value is >= -273.15 and converts back to the input; otherwise the error is the absolute-zero one |
| `Decisions.ToFarenheit` | CS1B_Temperature_GUI/src/TemperatureController.java:79-85 | converts exactly when the Celsius input is >= -273.15; a converted value is >= -459.67 and converts back to the input; otherwise the error is the absolute-zero one |
| `Decisions.AbsoluteZeroChecksAgree` | CS1B_Temperature_GUI/src/TemperatureController.java:46-89 | a Celsius value passes the to-Fahrenheit check exactly when its Fahrenheit equivalent passes the to-Celsius check; converting back then returns the original value |
| `Decisions.AbsoluteZeroChecksAgreeFromFarenheit` | CS1B_Temperature_GUI/src/TemperatureController.java:46-89 | the same agreement and round trip, starting from a Fahrenheit value |
| `Decisions.DecideToCelsius` | CS1B_Temperature_GUI/src/TemperatureController.java:46-62 | never an input error; a number format error exactly when the text is not a decimal literal; an absolute-zero error exactly when the parsed value is below -459.67; a conversion is >= -273.15 and converts back to the parsed input |
| `Decisions.DecideToFarenheit` | CS1B_Temperature_GUI/src/TemperatureController.java:73-89 | never an input error; a number format error exactly when the text is not a decimal literal; an absolute-zero error exactly when the parsed Celsius input is below -273.15; a conversion converts back to the parsed input |
| `Decisions.BodyTemperatureExample` | CS1B_Temperature_GUI/src/TemperatureController.java:51-55 | "98.6" F converts to exactly 37 C |
| `Decisions.BelowAbsoluteZeroExample` | CS1B_Temperature_GUI/src/TemperatureController.java:78-84 | "-273.16" C ends in the absolute-zero error |
| `Decisions.NumberFormatExample` | CS1B_Temperature_GUI/src/TemperatureController.java:59-60 | "." ends in the number format error |
| `Form.FailsFilter` | CS1B_Temperature_GUI/src/TemperatureGUI.java:81 | text passes the pre-validation exactly when it is non-empty and every character is a number character |
| `Form.ToDegreesCPress` | CS1B_Temperature_GUI/src/TemperatureGUI.java:79-85 | pressing toDegreesC ends in the input error exactly when the Fahrenheit text fails the pre-validation |
| `Form.ToDegreesFPress` | CS1B_Temperature_GUI/src/TemperatureGUI.java:88-94 | pressing toDegreesF ends in the input error exactly when the Celsius text fails the pre-validation |
| `Form.InputErrorExamples` | CS1B_Temperature_GUI/src/TemperatureGUI.java:79-94 | "" and "12a3" are input errors in both directions |
| `Form.TemperatureGUI.constructor` | CS1B_Temperature_GUI/src/TemperatureGUI.java:249-268 | a new view keeps its controller and has empty texts, label and message, no error colour and no highlighted button (the components it builds are those of `initializeGUIObjects`, TemperatureGUI.java:132-155) |
| `Form.TemperatureGUI.FocusLost` | CS1B_Temperature_GUI/src/TemperatureGUI.java:43-44 | no view state changes |
| `Form.TemperatureGUI.FocusGained` | CS1B_Temperature_GUI/src/TemperatureGUI.java:55-66 | both texts cleared; the focused field's error colour cleared; only the button converting from it highlighted; label blanked; stored message and the other colour unchanged |
| `Form.TemperatureGUI.ActionPerformed` | CS1B_Temperature_GUI/src/TemperatureGUI.java:76-100 | for a conversion press the outcome is the filter followed by the controller decision. The source text is unchanged. The destination shows format(value) or is cleared. An error colours the source field. The destination colour is reset unless the filter rejected the text. Both buttons end inactive. Label and stored message both equal the outcome's text. Quit changes no view state and sets the quit request |
| `Form.TemperatureGUI.ActiveCInactiveFButton` | CS1B_Temperature_GUI/src/TemperatureGUI.java:106-109 | toDegreesC highlighted, toDegreesF not, nothing else changes |
| `Form.TemperatureGUI.ActiveFInactiveCButton` | CS1B_Temperature_GUI/src/TemperatureGUI.java:115-118 | toDegreesF highlighted, toDegreesC not, nothing else changes |
| `Form.TemperatureGUI.InactiveCInactiveFButtons` | CS1B_Temperature_GUI/src/TemperatureGUI.java:124-127 | neither button highlighted, nothing else changes |
| `Form.TemperatureGUI.ClearTemperatureTextFields` | CS1B_Temperature_GUI/src/TemperatureGUI.java:273-276 | both texts empty, nothing else changes |
| `Form.TemperatureGUI.UpdateCelsiusTemperatureString` | CS1B_Temperature_GUI/src/TemperatureGUI.java:281-284 | only the Celsius text changes, to the given text |
| `Form.TemperatureGUI.UpdateFarenheitTemperatureString` | CS1B_Temperature_GUI/src/TemperatureGUI.java:289-292 | only the Fahrenheit text changes, to the given text |
| `Form.TemperatureGUI.FlagFarenheitError` | CS1B_Temperature_GUI/src/TemperatureGUI.java:298-302 | Celsius text cleared, message stored, Fahrenheit error colour set; Fahrenheit text and everything else unchanged |
| `Form.TemperatureGUI.FlagCelsiusError` | CS1B_Temperature_GUI/src/TemperatureGUI.java:308-312 | Fahrenheit text cleared, message stored, Celsius error colour set; Celsius text and everything else unchanged |
| `Form.TemperatureGUI.ResetFarenheitTextColor` | CS1B_Temperature_GUI/src/TemperatureGUI.java:317-319 | only the Fahrenheit error colour changes, to cleared |
| `Form.TemperatureGUI.ResetCelsiusTextColor` | CS1B_Temperature_GUI/src/TemperatureGUI.java:324-326 | only the Celsius error colour changes, to cleared |
| `Form.TemperatureGUI.UpdateConversionMessage` | CS1B_Temperature_GUI/src/TemperatureGUI.java:331-333 | only the stored message changes; the label does not |
| `Form.TemperatureController.constructor` | CS1B_Temperature_GUI/src/TemperatureController.java:23-26 | a fresh view in its initial state, wired to this controller and back; no quit requested |
| `Form.TemperatureController.HandleToDegreesCButton` | CS1B_Temperature_GUI/src/TemperatureController.java:46-62 | the Celsius colour is cleared. The Celsius text becomes format(value) with the success message, or is cleared with the error's message and the Fahrenheit field coloured. The Fahrenheit text, the buttons and the label are unchanged |
| `Form.TemperatureController.HandleToDegreesFButton` | CS1B_Temperature_GUI/src/TemperatureController.java:73-89 | the mirror image: the Fahrenheit colour is cleared, the Fahrenheit text is set or cleared, and the Celsius field is coloured on an error. The Celsius text is unchanged |
| `Form.TemperatureController.HandleQuitButton` | CS1B_Temperature_GUI/src/TemperatureController.java:94-96 | the quit request is recorded |

## Left out

- Swing layout and construction: `initializeGUIObjects`, `addEventListeners`, `setGridConstraints`, `addGridRow`, `addSpecialGridRow`, `addComponentsToPaneGL`, fonts, sizes and look-and-feel. They are presentation only. The view constructor keeps only the initial state they establish.
- `main` and `System.exit(0)` are process control. The model records a `quitRequested` flag instead.
- IEEE-754 doubles: temperatures, the constants 5.0/9.0 and -273.15, and parsed values are exact reals. The round-trip identities hold exactly here, but only approximately in the program. Accept/reject decisions at the boundary may differ too, not only round trips: for exactly -459.67 F the double (-459.67-32.0)*(5.0/9.0) can fall on either side of -273.15, while the model accepts it.
- `String.format("%4.1f", …)` is the controller's uninterpreted `format` function, fixed when the controller is constructed. Its HALF_UP rounding and padding to width 4 are not modelled. So the example "98.6" F → "37.0" is proved only up to the value 37, not the displayed text. The padding has a visible effect that the model cannot show: 41 F is displayed as " 5.0", and pressing the reverse button without first clicking into that field sends the leading space to the filter, so the field shows "Input Error".
- NumberText.Parse: requires its input to be over {+, -, ., 0-9}. Anything else cannot get past the view's filter, so exponents, NaN, Infinity, hexadecimal literals, type suffixes and white-space trimming are not modelled.
- Form.TemperatureController.HandleToDegreesCButton: requires the input to be over the filter alphabet, as `Parse` does. Its only caller, `actionPerformed`, guarantees this.
- Form.TemperatureController.HandleToDegreesFButton: the same restriction, for the same reason.
- NumberText.MatchesInvalidNumber: treats every character alike. Java's `.` does not match line terminators, which matters only for multi-line text, and a text field holds a single line.
- Events from components without listeners: `focusGained` is registered only on the two text fields, and `actionPerformed` only on the three buttons. The `else` paths for other sources are not modelled.
- Colours are kept as flags: error or not for the field texts, ACTIVE or default for the buttons.
- Typing into the text fields is Swing's own editing and is not modelled. The field texts are public fields that a client sets directly.
- The event-dispatch thread: events are sequential method calls.
