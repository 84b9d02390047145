# Remote 3-2-3: settings, web bridge and status display in Dafny

This project models the configuration and display core of the Remote 3-2-3
firmware. The firmware is an ESP32 sketch that drives the three-legged stance
transitions of an R2-D2 droid. The model has three parts.

- **Settings** (`settings.dfy`, `src/settings.cpp`). `SettingsManager` holds
  the 17 tunable values of `ControllerSettings`. It also holds the
  Preferences namespace they persist in, as a map from key to a value tagged
  with its width. The model has `SetDefaults`, `Load`, `Save` and
  `ResetToDefaults`, and the `pendingApply` flag they raise. The compiled
  defaults are a parameter of the manager, so every property holds for any
  choice of them.
- **Web bridge** (`webconfig.dfy`, `src/webconfig.cpp`).
  - `WebConfigServer` has the `/cmd`, `/save`, `/reset` and `/status`
    handlers over abstract requests.
  - `/cmd` latches one of seven tokens into the single-slot command register.
  - `/save` applies each submitted field with the source's clamp or integer
    narrowing, then saves.
  - `/status` renders a JSON object, proved equal to a reference rendering of
    its twelve members.
  - The form row builder (`SendNumberRow`) is a pure function.
- **Display** (`display.dfy` and `shield.dfy`, `src/display.cpp`).
  - Waveshare tier: `DisplayManager` records every call into the TFT library
    in a ghost trace. It caches the background colour so an unchanged colour
    draws nothing, repaints text and indicator after a colour change, and
    sets the LED array.
  - `setLCDText` is a loop proved against a reference layout: line *k* is
    written at (10, 10 + 24*k*).
  - Shield tier, the 16×2 character LCD: `ShieldDisplay` records its calls,
    and a reference semantics `Run` of the character panel says what the two
    lines show afterwards.

`fixed.dfy` holds the C++ integer widths, the wrap-around conversions the
source performs implicitly, Arduino's `constrain`, and decimal text with its
read-back.

Where the written description and the code disagree, the model follows the
code:

- Malformed numbers in `/save`. They are not skipped: `toInt` turns them into
  0, which is stored. The model takes the values after `toInt`.
- Reset. The comment at `src/settings.h:47` says it saves, but the code
  clears the namespace (`src/settings.cpp:100`).
- Write failures. `Save` and `ResetToDefaults` report none; they return
  nothing.
- Unknown transition target. The shield tier prints no second line for it;
  only the Waveshare tier prints the "Goto Unknown" fallback.

Notes on the source:

- `src/display.h` does not declare the member `rollCodeEnabled` or the
  methods `drawRollCodeIndicator` and `showRollCodeEnabled`, though
  `src/display.cpp` uses all three. The model gives `DisplayManager` all
  three, as `src/display.cpp` uses them.
- On the Waveshare tier, `showStatus` sets the colour before it writes the
  new text. A colour change therefore first repaints the previous text
  (`Display.DisplayManager.ShowStatus`).

## Model

| member | source | states |
|---|---|---|
| Fixed.ToU8 | src/settings.h:11 | conversion to `uint8_t` yields the value in 0..255 congruent to the input modulo 2^8 |
| Fixed.ToI16 | src/webconfig.cpp:322 | conversion to `int16_t` yields the value in -32768..32767 congruent to the input modulo 2^16 |
| Fixed.ToU16 | src/webconfig.cpp:332 | conversion to `uint16_t` yields the value in 0..65535 congruent modulo 2^16 |
| Fixed.ToU32 | src/webconfig.cpp:334 | conversion to `uint32_t` yields the value congruent modulo 2^32 |
| Fixed.ConversionsKeepInRangeValues | src/webconfig.cpp:321-339 | a value already within a field's width is stored unchanged |
| Fixed.Constrain | src/webconfig.cpp:321 | the result lies in [low, high], equals the input inside it and the nearer bound outside |
| Fixed.NatDigits | src/webconfig.cpp:100 | decimal text is nonempty, all digits, with no leading zero |
| Fixed.Dec | src/webconfig.cpp:253 | `String += int` text: nonempty, digits or '-', and starts with '-' exactly when the number is negative |
| Fixed.NatDigitsRoundTrip | src/webconfig.cpp:100 | reading back the digits of n gives n |
| Fixed.DecRoundTrip | src/webconfig.cpp:99-100 | reading back the decimal text of any integer gives that integer |
| Fixed.Truncate | src/display.cpp:124 | `snprintf` keeps a prefix of at most the buffer's capacity, and all of a text that fits |
| Settings.KeysDistinct | src/settings.cpp:72-90 | the 17 keys are pairwise distinct and are the keys `Save` writes |
| Settings.SameFields | src/settings.h:8-34 | two records equal on all 17 fields are equal |
| Settings.LoadedField | src/settings.cpp:45-63 | each loaded field is its stored value when the key holds one of its width, else its default |
| Settings.SavedField | src/settings.cpp:72-90 | after a save each field's key holds the field's value tagged with its declared width |
| Settings.SaveIntoFrame | src/settings.cpp:70-92 | a save adds exactly the 17 keys and leaves every other key of the namespace untouched |
| Settings.SaveThenLoad | src/settings.cpp:38-95 | loading after a save returns exactly the saved record, whatever the store held and whatever the defaults |
| Settings.LoadFromEmpty | src/settings.cpp:97-105 | loading from the cleared namespace yields the defaults |
| Settings.LoadIgnoresForeignKeys | src/settings.cpp:45-63 | keys other than the 17 have no effect on a load |
| Settings.SettingsManager.constructor | src/settings.cpp:9-13 | the manager starts with the defaults and `pendingApply` false |
| Settings.SettingsManager.SetDefaults | src/settings.cpp:15-36 | every field is set to its default |
| Settings.SettingsManager.Load | src/settings.cpp:38-66 | the settings become the field-by-field read of the store over the defaults |
| Settings.SettingsManager.Save | src/settings.cpp:68-95 | the store becomes the old store with the 17 fields written, and `pendingApply` is raised |
| Settings.SettingsManager.ResetToDefaults | src/settings.cpp:97-105 | the namespace is emptied, the settings are the defaults, and `pendingApply` is raised |
| Settings.SaveThenReload | src/settings.cpp:38-95 | a save then a load leaves the active settings unchanged |
| Settings.ResetThenReload | src/settings.cpp:97-105 | after a reset a later load yields the defaults |
| WebConfig.ParseCommand | src/webconfig.cpp:294-303 | a command is selected exactly when the argument is one of the seven tokens |
| WebConfig.Token | src/webconfig.cpp:138-146 | the token for each real command is one of the accepted tokens |
| WebConfig.TokenSelectsCommand | src/webconfig.cpp:297-303 | each command's token selects that command |
| WebConfig.OnlyTokenSelectsCommand | src/webconfig.cpp:297-303 | only its token selects a command, so tokens and commands correspond one to one |
| WebConfig.FormValue | src/webconfig.cpp:321-339 | the power multiplier is clamped to 0..100; any other field is the submitted value narrowed to its width |
| WebConfig.PowerMultiplierClamped | src/webconfig.cpp:321 | 150 is stored as 100, -5 as 0, and 42 as 42 |
| WebConfig.MotorPowerNotRangeChecked | src/webconfig.cpp:322-332 | 5000 is stored for a motor power despite the form's ±2047; 40000 wraps; -1 as an interval becomes 65535 |
| WebConfig.SubmittedField | src/webconfig.cpp:319-339 | a field whose key was submitted takes its form value; every other field keeps its value |
| WebConfig.SubmitEmptyForm | src/webconfig.cpp:321-339 | a form with none of the keys changes nothing |
| WebConfig.ResubmitUnchanged | src/webconfig.cpp:321-339 | resubmitting the shown values changes nothing, given a multiplier within 0..100 |
| WebConfig.NumberRow | src/webconfig.cpp:91-109 | the row text: label cell, the input named `name` with the decimal value, then the bounds and the default hint; `WebConfig.NumberRowShowsValue` states what it promises |
| WebConfig.NumberRowShowsValue | src/webconfig.cpp:95-107 | the row's value attribute is the decimal text of the value, closed by a quote, and reads back as the value |
| WebConfig.StatusMembers | src/webconfig.cpp:252-281 | the object has 12 members; the name is a string, the moving and armed flags and the fixed tilt members are as written |
| WebConfig.StatusJsonIsObject | src/webconfig.cpp:252-281 | the appended text equals the reference JSON rendering of the twelve members, in order |
| WebConfig.WebConfigServer.constructor | src/webconfig.cpp:21-24 | the register starts empty and the server edits the given manager |
| WebConfig.WebConfigServer.HandleCommand | src/webconfig.cpp:286-315 | missing `cmd` gives 400 "Missing cmd", an unknown token 400 "Unknown command", both leaving the register; a token gives 200 and overwrites the register |
| WebConfig.WebConfigServer.HandleSave | src/webconfig.cpp:317-351 | the settings become the submitted form applied to them, then are saved and flagged |
| WebConfig.WebConfigServer.HandleReset | src/webconfig.cpp:353-365 | the namespace is emptied, the defaults are restored and flagged |
| WebConfig.WebConfigServer.HandleStatus | src/webconfig.cpp:249-284 | the reply is 200 with the JSON object of the status members |
| Display.LedColor | src/display.cpp:78-105 | each named colour maps to its LED colour (both directions), and every other colour to black |
| Display.FindNewline | src/display.cpp:227 | `strchr` finds the first line feed at or after the start, or reports none |
| Display.LineOpsArePlaced | src/display.cpp:219-240 | the loop's writes are the reference layout from any line on |
| Display.JoinLinesFrom | src/display.cpp:224-240 | the written segments joined by line feeds give back the text without its trailing line feed |
| Display.LinesHaveNoNewline | src/display.cpp:227-233 | no written segment contains a line feed |
| Display.TextLayout | src/display.cpp:217-241 | `setLCDText` writes segment k at (10, 10+24k), the segments rebuild the text, and none contains a line feed |
| Display.TextDoesNotFill | src/display.cpp:217-241 | writing text never clears the screen |
| Display.StatusTextLines | src/display.cpp:124-130 | the status text is two screen lines: the 15-character header, then stance, ": " and name |
| Display.StatusTextHasNoNul | src/display.cpp:124-130 | the formatted status text, truncated to the buffer, is a C string |
| Display.TransitionTextLines | src/display.cpp:167-178 | each transition text is the moving header and the target's line, both 16 columns wide |
| Display.TransitionTextIsCString | src/display.cpp:167-178 | each transition text fits the buffer and holds no terminator |
| Display.DisplayManager.constructor | src/display.cpp:8-19 | no colour cached (-1), empty text, not armed, nothing drawn |
| Display.DisplayManager.IndicatorOp | src/display.cpp:245-259 | the indicator is a radius-18 circle 26 pixels in from the bottom-right corner, violet when armed, else the background |
| Display.DisplayManager.RepaintFillsOnce | src/display.cpp:67-76 | a repaint clears the screen once, first, rewrites the text and ends with the indicator |
| Display.DisplayManager.SetLCDText | src/display.cpp:217-241 | the loop appends exactly the reference calls for the message |
| Display.DisplayManager.DrawRollCodeIndicator | src/display.cpp:243-260 | one circle is drawn, violet when armed, otherwise in the cached colour |
| Display.DisplayManager.SetBacklightColor | src/display.cpp:63-115 | a new colour repaints with the current text and indicator; the cached colour draws nothing; every LED gets the colour's LED colour |
| Display.DisplayManager.ShowStatus | src/display.cpp:117-133 | blue up to stance 2, red above; the old text is repainted on a colour change, then the formatted status text is written |
| Display.DisplayManager.ShowTransition | src/display.cpp:162-180 | green, then the transition text for the target is written |
| Display.DisplayManager.ShowRollCodeEnabled | src/display.cpp:199-203 | the flag is recorded and only the indicator is redrawn |
| Display.SetColorTwice | src/display.cpp:67-76 | setting the same colour twice repaints at most once |
| Display.FirstColorRepaints | src/display.cpp:63-76 | the first colour a display fresh from its constructor is given (any `int` but the initial -1) repaints the screen with the empty text and the unarmed indicator |
| Display.LedColorsDistinct | src/display.cpp:78-105 | distinct named colours other than black light the LEDs differently |
| Shield.PrintOverwrites | src/display.cpp:135-158 | printing overwrites the cursor's line from the cursor on, clipped to 16 columns, and advances the cursor |
| Shield.ShieldDisplay.constructor | src/display.cpp:8-19 | no colour cached and no calls made |
| Shield.ShieldDisplay.SetBacklightColor | src/display.cpp:112-114 | only the backlight is set; there is no cache on this tier |
| Shield.StatusOps | src/display.cpp:135-158 | the calls of the shield's `showStatus` as written: "Status:", then "OK" and its padding on blue or the unpadded "Error" on red, then the stance line; `Shield.StaleErrorColumn` states what it leaves on the panel |
| Shield.ShieldDisplay.ShowStatus | src/display.cpp:134-159 | the calls are exactly `StatusOps`: the status branch for the stance, with the unpadded "Error", then the stance line |
| Shield.ShieldDisplay.ShowTransition | src/display.cpp:181-196 | the moving header, green, then a second-line print only for target 1 or 2 |
| Shield.ShieldDisplay.ShowRollCodeEnabled | src/display.cpp:204-213 | the backlight is violet when armed, blue otherwise |
| Shield.TransitionScreen | src/display.cpp:182-195 | the top reads "Status: Moving  " on green; a known target names itself below, and an unknown one leaves the bottom line as it was |
| Shield.StatusWordLine | src/display.cpp:135-152 | the first line reads "Status:", keeps column 7, then "OK    " or the error word; the backlight is blue or red |
| Shield.StatusTopLine | src/display.cpp:135-158 | the second-line calls do not disturb that first line or the backlight |
| Shield.SecondLine | src/display.cpp:153-158 | the second line is the stance, overwritten from column 1 by ": ", then the name from column 3 |
| Shield.StatusBottomLine | src/display.cpp:153-158 | the second line starts with the stance's first character and ": ", then the name; a one-digit stance gives exactly stance, ": ", name |
| Shield.StaleErrorColumn | src/display.cpp:148-151 | after any transition, an error status leaves "Status: Errorg  " on the first line |
| Shield.PaddedStatusShowsWord | src/display.cpp:137-151 | with the error word padded, columns 8 to 13 show exactly "OK    " or "Error " |
| Shield.RollCodeScreen | src/display.cpp:205-212 | the roll-code call changes only the backlight |

## Left out

- WiFi access point, route registration, `Begin` and `HandleClient`: network I/O and library dispatch.
- `HandleRoot` and the HTML header and footer: long constant page text. Only the row builder `SendNumberRow` is modelled, as `NumberRow`.
- `SendNumberRow` is called from `HandleRoot` with an `int` conversion of the 32-bit timeout; that call is not part of this model.
- Serial logging in the handlers.
- The S3 board's IMU tilt members of `/status` (a float formatted with one decimal). The model is the board without IMU, whose tilt members are the constants `0` and `false`.
- `String::toInt` parsing. The form map holds the parsed values; text that does not parse becomes 0, as the code does.
- Preferences library internals: `begin`/`end`, flash write failures, and the library's own type checks. A getter returns the caller's default when the key is missing or holds another width.
- `DisplayManager::begin` on both tiers: pin setup, SPI and panel initialisation, and the start-up banners.
- Pixel rendering of text and circles: the model records the calls, not the pixels.
- `FastLED.show()`: the model sets the LED array but does not record pushing it to the strip.
- The ST77XX colour constants and the 16-bit narrowing of colour arguments in the Adafruit calls. The palette is a parameter of the Waveshare display.
- The `volatile` qualifier of the command register and its consumer in the main loop; no concurrency is modelled.
- Shield panel: the controller's 40-column memory beyond column 15 and the row clamping of `setCursor`. Text past column 15 is not shown, and only rows 0 and 1 are written.
- C strings become Dafny strings of characters. Names (the stance name, labels, keys) are taken as ASCII: the `snprintf` buffer capacity (`Fixed.Truncate`) and the 16 columns of the shield panel count characters, not bytes, so they differ from the source for a name with multi-byte characters. Byte counting is not modelled.
- WebConfig.ParseCommand: compares the whole argument, taking it to have no embedded NUL. The source's `String ==` stops at a NUL, so "legup" followed by a NUL and more text selects legup there but is an unknown command here.
- WebConfig.StatusSnapshot: its `stanceName` may hold a NUL, which the source's C string cannot; the status JSON for such a name is not the source's.
- Display.TransitionText: written as the header, a line feed and the target's line. This is the same string as each of the three literals of the source.

## Findings

| source | as written | input that shows it | evidently intended | confidence | as-written member | corrected member |
|---|---|---|---|---|---|---|
| src/display.cpp:148-151 | the shield's error branch prints "Error" at column 8 without padding, while the OK branch pads with spaces up to column 13 | `showTransition(t)` for any t, then `showStatus(3, name)`: the first line reads "Status: Errorg  " | the error word padded to the same width, "Error ", so no letter of "Moving" remains | not executed | Shield.StaleErrorColumn | Shield.PaddedStatusShowsWord |
