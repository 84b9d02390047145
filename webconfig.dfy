/**
 * The web command and configuration bridge (src/webconfig.h, src/webconfig.cpp).
 *
 * Each HTTP handler is a member of `WebConfigServer` over abstract inputs:
 * the request's arguments as a map (for `/save`, the values after
 * `String::toInt`), the status variables of the main sketch as a
 * `StatusSnapshot` record, and the reply as a `Reply` value. The WiFi
 * access point, route registration and the HTML configuration page are not
 * part of this model.
 */
module WebConfig {
  import opened Fixed
  import opened Settings

  /** The command codes of the single-slot register, in the order of the C++ enum. */
  datatype WebCommand =
    | NoCommand
    | MoveLegUp
    | MoveLegDn
    | MoveTiltUp
    | MoveTiltDn
    | TwoToThree
    | ThreeToTwo
    | EmergencyStop

  /** The tokens `/cmd` accepts. */
  const CommandTokens: set<string> := {"legup", "legdn", "tiltup", "tiltdn", "twotothree", "threetotwo", "stop"}

  /** The `cmd` argument's token as `HandleCommand` reads it; `NoCommand` for any other text. */
  function ParseCommand(cmd: string): (wc: WebCommand)
    ensures wc != NoCommand <==> cmd in CommandTokens
  {
    if cmd == "legup" then MoveLegUp
    else if cmd == "legdn" then MoveLegDn
    else if cmd == "tiltup" then MoveTiltUp
    else if cmd == "tiltdn" then MoveTiltDn
    else if cmd == "twotothree" then TwoToThree
    else if cmd == "threetotwo" then ThreeToTwo
    else if cmd == "stop" then EmergencyStop
    else NoCommand
  }

  /** The token that selects each real command (the buttons of the web page send these). */
  function Token(c: WebCommand): (t: string)
    requires c != NoCommand
    ensures t in CommandTokens
  {
    match c
    case MoveLegUp => "legup"
    case MoveLegDn => "legdn"
    case MoveTiltUp => "tiltup"
    case MoveTiltDn => "tiltdn"
    case TwoToThree => "twotothree"
    case ThreeToTwo => "threetotwo"
    case EmergencyStop => "stop"
  }

  /** Every real command has a token that selects it ... */
  lemma TokenSelectsCommand(c: WebCommand)
    requires c != NoCommand
    ensures ParseCommand(Token(c)) == c
  {
  }

  /** ... and that token is the only text that selects it, so the mapping is a bijection. */
  lemma OnlyTokenSelectsCommand(cmd: string)
    requires ParseCommand(cmd) != NoCommand
    ensures Token(ParseCommand(cmd)) == cmd
  {
  }

  /** An HTTP reply: a JSON body, or one of the streamed HTML confirmation pages (by title). */
  datatype Reply = Json(code: int, body: string) | HtmlPage(code: int, title: string)

  const MissingCmdBody := "{\"ok\":false,\"msg\":\"Missing cmd\"}"
  const UnknownCmdBody := "{\"ok\":false,\"msg\":\"Unknown command\"}"
  const OkBody := "{\"ok\":true}"

  /**
   * What `/save` stores for a submitted `long` value `v` of field `f`: the
   * power multiplier is clamped to 0..100; every other field takes `v`
   * converted to its declared width, without any range check.
   */
  function FormValue(f: Field, v: I32): (r: int)
    ensures f == PowerMultiplier ==> 0 <= r <= 100
    ensures f != PowerMultiplier ==> r == Narrow(WidthOf(f), v)
  {
    if f == PowerMultiplier then Constrain(v, 0, 100) else Narrow(WidthOf(f), v)
  }

  /** The clamp of the power multiplier: 150 is stored as 100 and -5 as 0. */
  lemma PowerMultiplierClamped()
    ensures FormValue(PowerMultiplier, 150) == 100
    ensures FormValue(PowerMultiplier, -5) == 0
    ensures FormValue(PowerMultiplier, 42) == 42
  {
  }

  /**
   * The motor powers are not range-checked: a value outside the advisory
   * -2047..2047 of the form is accepted as it is, and one outside 16 bits
   * wraps around.
   */
  lemma MotorPowerNotRangeChecked()
    ensures FormValue(MoveLegDnPower, 5000) == 5000
    ensures FormValue(MoveLegDnPower, 40000) == 40000 - 0x1_0000
    ensures FormValue(StanceInterval, -1) == 0xFFFF
  {
  }

  /** The status variables of the main sketch that `/status` reports. */
  datatype StatusSnapshot = StatusSnapshot(
    currentStance: I32,
    stanceName: string,
    stanceTarget: I32,
    legMoving: bool,
    tiltMoving: bool,
    enableRollCodeTransitions: bool,
    legUp: I32,
    legDn: I32,
    tiltUp: I32,
    tiltDn: I32,
    webMoveActive: I32)

  function BoolText(b: bool): string
  {
    if b then "true" else "false"
  }

  /** The `/status` body, built by successive appends in the order of the handler. */
  function StatusJson(s: StatusSnapshot): string
  {
    var json := "{\"stance\":";
    var json := json + Dec(s.currentStance);
    var json := json + ",\"stanceName\":\"";
    var json := json + s.stanceName;
    var json := json + "\",\"target\":";
    var json := json + Dec(s.stanceTarget);
    var json := json + ",\"moving\":";
    var json := json + BoolText(s.legMoving || s.tiltMoving);
    var json := json + ",\"armed\":";
    var json := json + BoolText(s.enableRollCodeTransitions);
    var json := json + ",\"legUp\":";
    var json := json + Dec(s.legUp);
    var json := json + ",\"legDn\":";
    var json := json + Dec(s.legDn);
    var json := json + ",\"tiltUp\":";
    var json := json + Dec(s.tiltUp);
    var json := json + ",\"tiltDn\":";
    var json := json + Dec(s.tiltDn);
    var json := json + ",\"webMove\":";
    var json := json + Dec(s.webMoveActive);
    var json := json + ",\"tiltDeg\":0";
    var json := json + ",\"tiltValid\":false";
    json + "}"
  }

  /** A JSON value as the handler writes it; strings are written verbatim, without escaping. */
  datatype JsonValue = JNumber(n: int) | JBool(b: bool) | JString(s: string)

  function RenderValue(v: JsonValue): string
  {
    match v
    case JNumber(n) => Dec(n)
    case JBool(b) => BoolText(b)
    case JString(s) => "\"" + s + "\""
  }

  /** The text that opens a member: `{` before the first one, `,` before the others, then the quoted key and `:`. */
  function KeyText(key: string, first: bool): string
  {
    (if first then "{" else ",") + "\"" + key + "\":"
  }

  /**
   * Reference rendering of a JSON object: `acc` is the text so far, `first`
   * says whether no member has been written yet.
   */
  function RenderMembers(acc: string, members: seq<(string, JsonValue)>, first: bool): string
    decreases |members|
  {
    if |members| == 0 then acc + "}"
    else RenderMembers(acc + KeyText(members[0].0, first) + RenderValue(members[0].1), members[1..], false)
  }

  function RenderObject(members: seq<(string, JsonValue)>): string
  {
    if |members| == 0 then "{}" else RenderMembers("", members, true)
  }

  /** The members of the `/status` object, in their fixed order (board without IMU). */
  function StatusMembers(s: StatusSnapshot): (ms: seq<(string, JsonValue)>)
    ensures |ms| == 12
    ensures ms[3] == ("moving", JBool(s.legMoving || s.tiltMoving))
    ensures ms[4] == ("armed", JBool(s.enableRollCodeTransitions))
    ensures ms[1] == ("stanceName", JString(s.stanceName))
    ensures ms[10] == ("tiltDeg", JNumber(0)) && ms[11] == ("tiltValid", JBool(false))
  {
    [("stance", JNumber(s.currentStance)),
     ("stanceName", JString(s.stanceName)),
     ("target", JNumber(s.stanceTarget)),
     ("moving", JBool(s.legMoving || s.tiltMoving)),
     ("armed", JBool(s.enableRollCodeTransitions)),
     ("legUp", JNumber(s.legUp)),
     ("legDn", JNumber(s.legDn)),
     ("tiltUp", JNumber(s.tiltUp)),
     ("tiltDn", JNumber(s.tiltDn)),
     ("webMove", JNumber(s.webMoveActive)),
     ("tiltDeg", JNumber(0)),
     ("tiltValid", JBool(false))]
  }

  /** One member of the reference rendering after the first. */
  lemma RenderStep(acc: string, ms: seq<(string, JsonValue)>, k: nat)
    requires k < |ms|
    ensures RenderMembers(acc, ms[k..], false)
         == RenderMembers(acc + KeyText(ms[k].0, false) + RenderValue(ms[k].1), ms[k + 1..], false)
  {
    assert ms[k..][1..] == ms[k + 1..];
  }

  /** The literal pieces of the handler, each split into the reference's key texts. */
  lemma HeadKeyTexts()
    ensures KeyText("stance", true) == "{\"stance\":"
    ensures KeyText("stanceName", false) + "\"" == ",\"stanceName\":\""
    ensures "\"" + KeyText("target", false) == "\",\"target\":"
  {
  }

  lemma FlagKeyTexts()
    ensures KeyText("moving", false) == ",\"moving\":"
    ensures KeyText("armed", false) == ",\"armed\":"
    ensures KeyText("legUp", false) == ",\"legUp\":"
  {
  }

  lemma TimerKeyTexts()
    ensures KeyText("legDn", false) == ",\"legDn\":"
    ensures KeyText("tiltUp", false) == ",\"tiltUp\":"
    ensures KeyText("tiltDn", false) == ",\"tiltDn\":"
  {
  }

  lemma TailKeyTexts()
    ensures KeyText("webMove", false) == ",\"webMove\":"
    ensures KeyText("tiltDeg", false) + Dec(0) == ",\"tiltDeg\":0"
    ensures KeyText("tiltValid", false) + BoolText(false) == ",\"tiltValid\":false"
  {
  }

  lemma Assoc(a: string, b: string, c: string)
    ensures a + b + c == a + (b + c)
  {
  }

  lemma Regroup(a: string, b: string, c: string, d: string, e: string, f: string)
    ensures a + b + (c + d + c) + e + f == a + (b + c) + d + (c + e) + f
  {
  }

  /** The first three members: the stance, its name and its target. */
  lemma StatusHead(s: StatusSnapshot)
    ensures RenderObject(StatusMembers(s))
         == RenderMembers(KeyText("stance", true) + Dec(s.currentStance)
                          + (KeyText("stanceName", false) + "\"") + s.stanceName
                          + ("\"" + KeyText("target", false)) + Dec(s.stanceTarget),
                          StatusMembers(s)[3..], false)
  {
    var ms := StatusMembers(s);
    var j1 := KeyText("stance", true) + Dec(s.currentStance);
    assert RenderObject(ms) == RenderMembers(j1, ms[1..], false) by {
      assert "" + KeyText(ms[0].0, true) + RenderValue(ms[0].1) == j1;
    }
    RenderStep(j1, ms, 1);
    RenderStep(j1 + KeyText("stanceName", false) + RenderValue(ms[1].1), ms, 2);
    // The handler writes the closing quote of the name together with the next key.
    Regroup(j1, KeyText("stanceName", false), "\"", s.stanceName, KeyText("target", false), Dec(s.stanceTarget));
  }

  /** Members 3 to 5: the moving and armed flags and the leg-up timer. */
  lemma StatusFlags(s: StatusSnapshot, acc: string)
    ensures RenderMembers(acc, StatusMembers(s)[3..], false)
         == RenderMembers(acc + KeyText("moving", false) + BoolText(s.legMoving || s.tiltMoving)
                          + KeyText("armed", false) + BoolText(s.enableRollCodeTransitions)
                          + KeyText("legUp", false) + Dec(s.legUp),
                          StatusMembers(s)[6..], false)
  {
    var ms := StatusMembers(s);
    var j4 := acc + KeyText("moving", false) + BoolText(s.legMoving || s.tiltMoving);
    var j5 := j4 + KeyText("armed", false) + BoolText(s.enableRollCodeTransitions);
    RenderStep(acc, ms, 3);
    RenderStep(j4, ms, 4);
    RenderStep(j5, ms, 5);
  }

  /** Members 6 to 8: the remaining button timers. */
  lemma StatusTimers(s: StatusSnapshot, acc: string)
    ensures RenderMembers(acc, StatusMembers(s)[6..], false)
         == RenderMembers(acc + KeyText("legDn", false) + Dec(s.legDn)
                          + KeyText("tiltUp", false) + Dec(s.tiltUp)
                          + KeyText("tiltDn", false) + Dec(s.tiltDn),
                          StatusMembers(s)[9..], false)
  {
    var ms := StatusMembers(s);
    var j7 := acc + KeyText("legDn", false) + Dec(s.legDn);
    var j8 := j7 + KeyText("tiltUp", false) + Dec(s.tiltUp);
    RenderStep(acc, ms, 6);
    RenderStep(j7, ms, 7);
    RenderStep(j8, ms, 8);
  }

  /** Members 9 to 11: the web-move timer and the fixed tilt members, then the closing brace. */
  lemma StatusTail(s: StatusSnapshot, acc: string)
    ensures RenderMembers(acc, StatusMembers(s)[9..], false)
         == acc + KeyText("webMove", false) + Dec(s.webMoveActive)
            + KeyText("tiltDeg", false) + Dec(0)
            + KeyText("tiltValid", false) + BoolText(false) + "}"
  {
    var ms := StatusMembers(s);
    var j10 := acc + KeyText("webMove", false) + Dec(s.webMoveActive);
    var j11 := j10 + KeyText("tiltDeg", false) + Dec(0);
    RenderStep(acc, ms, 9);
    RenderStep(j10, ms, 10);
    RenderStep(j11, ms, 11);
    assert ms[12..] == [];
  }

  /** The handler's text is exactly the JSON object with those members in that order. */
  lemma StatusJsonIsObject(s: StatusSnapshot)
    ensures StatusJson(s) == RenderObject(StatusMembers(s))
  {
    // jK is the text after the first K members.
    var j3 := KeyText("stance", true) + Dec(s.currentStance)
              + (KeyText("stanceName", false) + "\"") + s.stanceName
              + ("\"" + KeyText("target", false)) + Dec(s.stanceTarget);
    var j6 := j3 + KeyText("moving", false) + BoolText(s.legMoving || s.tiltMoving)
              + KeyText("armed", false) + BoolText(s.enableRollCodeTransitions)
              + KeyText("legUp", false) + Dec(s.legUp);
    var j9 := j6 + KeyText("legDn", false) + Dec(s.legDn)
              + KeyText("tiltUp", false) + Dec(s.tiltUp)
              + KeyText("tiltDn", false) + Dec(s.tiltDn);
    var j10 := j9 + KeyText("webMove", false) + Dec(s.webMoveActive);
    var j11 := j10 + KeyText("tiltDeg", false) + Dec(0);
    StatusHead(s);
    StatusFlags(s, j3);
    StatusTimers(s, j6);
    StatusTail(s, j9);
    // The handler writes the last two members as constant text.
    Assoc(j10, KeyText("tiltDeg", false), Dec(0));
    Assoc(j11, KeyText("tiltValid", false), BoolText(false));
    HeadKeyTexts();
    FlagKeyTexts();
    TimerKeyTexts();
    TailKeyTexts();
  }

  /** The power multiplier after `/save`: the submitted value clamped to 0..100, if there is one. */
  function ArgClamped(form: map<string, I32>, key: string, current: U8): U8
  {
    if key in form then Constrain(form[key], 0, 100) else current
  }

  /** A signed 16-bit field after `/save`: the submitted `long` truncated to 16 bits, if there is one. */
  function ArgI16(form: map<string, I32>, key: string, current: I16): I16
  {
    if key in form then ToI16(form[key]) else current
  }

  /** An unsigned 16-bit field after `/save`. */
  function ArgU16(form: map<string, I32>, key: string, current: U16): U16
  {
    if key in form then ToU16(form[key]) else current
  }

  /** The 32-bit timeout after `/save`. */
  function ArgU32(form: map<string, I32>, key: string, current: U32): U32
  {
    if key in form then ToU32(form[key]) else current
  }

  /**
   * The settings after `/save` has applied the submitted form to `s`: the
   * fields are independent, each decided by its own key.
   */
  function Submitted(s: ControllerSettings, form: map<string, I32>): ControllerSettings
  {
    ControllerSettings(
      ArgClamped(form, "pwrMult", s.powerMultiplier),
      ArgI16(form, "legDnPwr", s.moveLegDnPower),
      ArgI16(form, "legUpPwr", s.moveLegUpPower),
      ArgI16(form, "tiltDnPwr", s.moveTiltDnPower),
      ArgI16(form, "tiltUpPwr", s.moveTiltUpPower),
      ArgI16(form, "23legPwr", s.twoToThreeLegPower),
      ArgI16(form, "23tiltPwr", s.twoToThreeTiltPower),
      ArgI16(form, "32legSlwPwr", s.threeToTwoLegSlowPower),
      ArgI16(form, "32legFstPwr", s.threeToTwoLegFastPower),
      ArgI16(form, "32tiltPwr", s.threeToTwoTiltPower),
      ArgU16(form, "stanceInt", s.stanceInterval),
      ArgU16(form, "showTimeInt", s.showTimeInterval),
      ArgU32(form, "cmdTimeout", s.commandEnableTimeout),
      ArgU16(form, "btnDebounce", s.buttonDebounceTime),
      ArgU16(form, "ph1Start", s.phase1Start),
      ArgU16(form, "ph1End", s.phase1End),
      ArgU16(form, "ph2Start", s.phase2Start))
  }

  /**
   * Each field whose key the form holds takes its `FormValue`; every other
   * field keeps its value.
   */
  lemma SubmittedField(s: ControllerSettings, form: map<string, I32>, f: Field)
    ensures Get(Submitted(s, form), f) == if Key(f) in form then FormValue(f, form[Key(f)]) else Get(s, f)
  {
    match f
    case PowerMultiplier =>
    case MoveLegDnPower =>
    case MoveLegUpPower =>
    case MoveTiltDnPower =>
    case MoveTiltUpPower =>
    case TwoToThreeLegPower =>
    case TwoToThreeTiltPower =>
    case ThreeToTwoLegSlowPower =>
    case ThreeToTwoLegFastPower =>
    case ThreeToTwoTiltPower =>
    case StanceInterval =>
    case ShowTimeInterval =>
    case CommandEnableTimeout =>
    case ButtonDebounceTime =>
    case Phase1Start =>
    case Phase1End =>
    case Phase2Start =>
  }

  /** A form without any of the keys leaves the settings as they were. */
  lemma SubmitEmptyForm(s: ControllerSettings, form: map<string, I32>)
    requires form.Keys !! StoreKeys
    ensures Submitted(s, form) == s
  {
    forall f ensures Get(Submitted(s, form), f) == Get(s, f) {
      KeysDistinct(f, f);
      SubmittedField(s, form, f);
    }
    SameFields(Submitted(s, form), s);
  }

  /**
   * Submitting the configuration page unchanged (every field it sends holds
   * the value the page showed) leaves the settings as they were, provided
   * the power multiplier is within the 0..100 the clamp keeps.
   */
  lemma ResubmitUnchanged(s: ControllerSettings, form: map<string, I32>)
    requires s.powerMultiplier <= 100
    requires forall f :: Key(f) in form ==> form[Key(f)] == Get(s, f)
    ensures Submitted(s, form) == s
  {
    forall f ensures Get(Submitted(s, form), f) == Get(s, f) {
      ConversionsKeepInRangeValues(Get(s, f));
      SubmittedField(s, form, f);
    }
    SameFields(Submitted(s, form), s);
  }

  /** One row of the configuration form: label, numeric input with its bounds, and the default as a hint. */
  function NumberRow(labelText: string, name: string, value: int, defaultValue: int, minVal: int, maxVal: int): string
  {
    RowHead(labelText, name) + Dec(value) + RowTail(defaultValue, minVal, maxVal)
  }

  /** The text of a row before the input's value. */
  function RowHead(labelText: string, name: string): string
  {
    "<tr><td>" + labelText + "</td><td><input type='number' name='" + name + "' value='"
  }

  /** The text of a row after the input's value: the quote that closes it, the bounds and the hint. */
  function RowTail(defaultValue: int, minVal: int, maxVal: int): string
  {
    "' min='" + Dec(minVal) + "' max='" + Dec(maxVal)
      + "'></td><td class='default'>default: " + Dec(defaultValue) + "</td></tr>"
  }

  /**
   * The input's value attribute is exactly the decimal text of `value`,
   * closed by a quote, so the browser submits `value` back unchanged.
   */
  lemma NumberRowShowsValue(labelText: string, name: string, value: int, defaultValue: int, minVal: int, maxVal: int)
    ensures var row := NumberRow(labelText, name, value, defaultValue, minVal, maxVal);
            var p := |RowHead(labelText, name)|;
            var d := Dec(value);
            p + |d| < |row| && row[p..p + |d|] == d && row[p + |d|] == '\''
            && DecValue(row[p..p + |d|]) == value
  {
    var h := RowHead(labelText, name);
    var d := Dec(value);
    var t := RowTail(defaultValue, minVal, maxVal);
    assert t[0] == '\'';
    var row := h + d + t;
    assert row[|h|..|h| + |d|] == d;
    assert row[|h| + |d|] == t[0];
    DecRoundTrip(value);
  }

  /** The web server: the command register and the settings it edits. */
  class WebConfigServer {
    const settingsMgr: SettingsManager
    /** The command last accepted by `/cmd`, for the control loop (not modelled) to consume. */
    var pendingCommand: WebCommand

    constructor (settingsManager: SettingsManager)
      ensures settingsMgr == settingsManager && pendingCommand == NoCommand
    {
      settingsMgr := settingsManager;
      pendingCommand := NoCommand;
    }

    /**
     * `/cmd`: a request without `cmd` or with an unknown token is refused
     * with 400 and leaves the register alone; a known token is latched into
     * the register, replacing any command not yet consumed.
     */
    method HandleCommand(args: map<string, string>) returns (reply: Reply)
      modifies this`pendingCommand
      ensures "cmd" !in args ==> reply == Json(400, MissingCmdBody) && pendingCommand == old(pendingCommand)
      ensures "cmd" in args && args["cmd"] !in CommandTokens ==>
                reply == Json(400, UnknownCmdBody) && pendingCommand == old(pendingCommand)
      ensures "cmd" in args && args["cmd"] in CommandTokens ==>
                reply == Json(200, OkBody) && pendingCommand == ParseCommand(args["cmd"]) != NoCommand
    {
      if "cmd" !in args {
        return Json(400, MissingCmdBody);
      }
      var cmd := args["cmd"];
      var wc := NoCommand;
      if cmd == "legup" { wc := MoveLegUp; }
      else if cmd == "legdn" { wc := MoveLegDn; }
      else if cmd == "tiltup" { wc := MoveTiltUp; }
      else if cmd == "tiltdn" { wc := MoveTiltDn; }
      else if cmd == "twotothree" { wc := TwoToThree; }
      else if cmd == "threetotwo" { wc := ThreeToTwo; }
      else if cmd == "stop" { wc := EmergencyStop; }
      if wc == NoCommand {
        return Json(400, UnknownCmdBody);
      }
      pendingCommand := wc;
      reply := Json(200, OkBody);
    }

    /**
     * `/save`: applies every submitted field to the active settings, then
     * saves all of them (which flags them for the control loop).
     */
    method HandleSave(form: map<string, I32>) returns (reply: Reply)
      modifies settingsMgr
      ensures settingsMgr.settings == Submitted(old(settingsMgr.settings), form)
      ensures settingsMgr.store == SaveInto(old(settingsMgr.store), settingsMgr.settings)
      ensures settingsMgr.pendingApply
      ensures reply == HtmlPage(200, "Settings Saved")
    {
      // Each field is overwritten only when its key was submitted.
      var s := settingsMgr.settings;
      s := s.(powerMultiplier := ArgClamped(form, "pwrMult", s.powerMultiplier));
      s := s.(moveLegDnPower := ArgI16(form, "legDnPwr", s.moveLegDnPower));
      s := s.(moveLegUpPower := ArgI16(form, "legUpPwr", s.moveLegUpPower));
      s := s.(moveTiltDnPower := ArgI16(form, "tiltDnPwr", s.moveTiltDnPower));
      s := s.(moveTiltUpPower := ArgI16(form, "tiltUpPwr", s.moveTiltUpPower));
      s := s.(twoToThreeLegPower := ArgI16(form, "23legPwr", s.twoToThreeLegPower));
      s := s.(twoToThreeTiltPower := ArgI16(form, "23tiltPwr", s.twoToThreeTiltPower));
      s := s.(threeToTwoLegSlowPower := ArgI16(form, "32legSlwPwr", s.threeToTwoLegSlowPower));
      s := s.(threeToTwoLegFastPower := ArgI16(form, "32legFstPwr", s.threeToTwoLegFastPower));
      s := s.(threeToTwoTiltPower := ArgI16(form, "32tiltPwr", s.threeToTwoTiltPower));
      s := s.(stanceInterval := ArgU16(form, "stanceInt", s.stanceInterval));
      s := s.(showTimeInterval := ArgU16(form, "showTimeInt", s.showTimeInterval));
      s := s.(commandEnableTimeout := ArgU32(form, "cmdTimeout", s.commandEnableTimeout));
      s := s.(buttonDebounceTime := ArgU16(form, "btnDebounce", s.buttonDebounceTime));
      s := s.(phase1Start := ArgU16(form, "ph1Start", s.phase1Start));
      s := s.(phase1End := ArgU16(form, "ph1End", s.phase1End));
      s := s.(phase2Start := ArgU16(form, "ph2Start", s.phase2Start));
      settingsMgr.settings := s;
      settingsMgr.Save();
      reply := HtmlPage(200, "Settings Saved");
    }

    /** `/reset`: erases the namespace and restores the defaults. */
    method HandleReset() returns (reply: Reply)
      modifies settingsMgr
      ensures settingsMgr.settings == settingsMgr.defaults && settingsMgr.store == map[]
      ensures settingsMgr.pendingApply
      ensures reply == HtmlPage(200, "Settings Reset")
    {
      settingsMgr.ResetToDefaults();
      reply := HtmlPage(200, "Settings Reset");
    }

    /** `/status`: always 200, with the status object in its fixed member order. */
    function HandleStatus(snap: StatusSnapshot): (reply: Reply)
      ensures reply == Json(200, RenderObject(StatusMembers(snap)))
    {
      StatusJsonIsObject(snap);
      Json(200, StatusJson(snap))
    }
  }
}
