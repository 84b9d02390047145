/**
 * The minimal display tier of src/display.cpp (the `#else` branches): a
 * 16x2 character LCD on an RGB backlight shield, driven by an Arduino Pro
 * Micro, where `int` is 16 bits wide.
 *
 * The calls into the shield library are recorded as a trace, and a small
 * reference semantics of the character display (`Run`) says what the two
 * lines show after a sequence of calls.
 */
module Shield {
  import opened Fixed
  import Display

  const COLUMNS := 16

  /** One call into the shield library. `print(int)` is a `Print` of its decimal text. */
  datatype LcdOp =
    | SetCursor(col: int, row: int)
    | Print(text: string)
    | SetBacklight(color: int)

  /** What the panel shows: its two lines, the cursor and the backlight colour. */
  datatype Lcd = Lcd(top: string, bottom: string, col: int, row: int, backlight: int)

  predicate WellFormed(s: Lcd)
  {
    |s.top| == COLUMNS && |s.bottom| == COLUMNS
  }

  /** One character at the cursor, which then moves right; off-screen characters are not shown. */
  function Put(s: Lcd, c: char): (r: Lcd)
    requires WellFormed(s)
    ensures WellFormed(r)
  {
    if 0 <= s.col < COLUMNS && s.row == 0 then s.(top := s.top[s.col := c], col := s.col + 1)
    else if 0 <= s.col < COLUMNS && s.row == 1 then s.(bottom := s.bottom[s.col := c], col := s.col + 1)
    else s.(col := s.col + 1)
  }

  function PrintText(s: Lcd, t: string): (r: Lcd)
    requires WellFormed(s)
    ensures WellFormed(r)
    decreases |t|
  {
    if |t| == 0 then s else PrintText(Put(s, t[0]), t[1..])
  }

  function Step(s: Lcd, op: LcdOp): (r: Lcd)
    requires WellFormed(s)
    ensures WellFormed(r)
  {
    match op
    case SetCursor(c, row) => s.(col := c, row := row)
    case Print(t) => PrintText(s, t)
    case SetBacklight(color) => s.(backlight := color)
  }

  /** The panel after the calls `ops`, starting from `s`. */
  function Run(s: Lcd, ops: seq<LcdOp>): (r: Lcd)
    requires WellFormed(s)
    ensures WellFormed(r)
    decreases |ops|
  {
    if |ops| == 0 then s else Run(Step(s, ops[0]), ops[1..])
  }

  lemma {:induction false} RunAppend(s: Lcd, a: seq<LcdOp>, b: seq<LcdOp>)
    requires WellFormed(s)
    ensures Run(s, a + b) == Run(Run(s, a), b)
    decreases |a|
  {
    if |a| > 0 {
      assert (a + b)[0] == a[0];
      assert (a + b)[1..] == a[1..] + b;
      RunAppend(Step(s, a[0]), a[1..], b);
    } else {
      assert a + b == b;
    }
  }

  /** The reference effect of printing `t` at column `col` of a line: the visible part is overwritten. */
  function Overwrite(line: string, col: int, t: string): (r: string)
    requires |line| == COLUMNS && 0 <= col
    ensures |r| == COLUMNS
  {
    if col >= COLUMNS then line
    else
      var k := if |t| < COLUMNS - col then |t| else COLUMNS - col;
      line[..col] + t[..k] + line[col + k..]
  }

  /** Printing overwrites the cursor's line from the cursor on and moves the cursor past the text. */
  lemma {:induction false} PrintOverwrites(s: Lcd, t: string)
    requires WellFormed(s) && 0 <= s.col
    ensures PrintText(s, t) == s.(top := if s.row == 0 then Overwrite(s.top, s.col, t) else s.top,
                                  bottom := if s.row == 1 then Overwrite(s.bottom, s.col, t) else s.bottom,
                                  col := s.col + |t|)
    decreases |t|
  {
    if |t| == 0 {
      assert Overwrite(s.top, s.col, t) == s.top;
      assert Overwrite(s.bottom, s.col, t) == s.bottom;
    } else {
      var s1 := Put(s, t[0]);
      PutStep(s, t[0]);
      PrintOverwrites(s1, t[1..]);
      OverwriteStep(s.top, s.col, t);
      OverwriteStep(s.bottom, s.col, t);
    }
  }

  /** `Put` as an update of the cursor's line, when the cursor is on the panel. */
  lemma PutStep(s: Lcd, c: char)
    requires WellFormed(s) && 0 <= s.col
    ensures Put(s, c) == s.(top := if s.row == 0 && s.col < COLUMNS then s.top[s.col := c] else s.top,
                            bottom := if s.row == 1 && s.col < COLUMNS then s.bottom[s.col := c] else s.bottom,
                            col := s.col + 1)
  {
  }

  /** Writing the first character, then the rest one column further on, is writing the whole text. */
  lemma OverwriteStep(line: string, col: int, t: string)
    requires |line| == COLUMNS && 0 <= col && |t| > 0
    ensures Overwrite(if col < COLUMNS then line[col := t[0]] else line, col + 1, t[1..]) == Overwrite(line, col, t)
  {
    if col < COLUMNS {
      var l1 := line[col := t[0]];
      var r := Overwrite(l1, col + 1, t[1..]);
      var k := if |t| < COLUMNS - col then |t| else COLUMNS - col;
      assert r == line[..col] + t[..k] + line[col + k..] by {
        if col + 1 < COLUMNS {
          assert r == l1[..col + 1] + t[1..][..k - 1] + l1[col + 1 + k - 1..];
          assert l1[..col + 1] == line[..col] + [t[0]];
          assert [t[0]] + t[1..][..k - 1] == t[..k];
          assert l1[col + k..] == line[col + k..];
        } else {
          assert r == l1;
          assert k == 1;
          assert l1 == line[..col] + t[..1] + line[col + 1..];
        }
      }
    }
  }

  /** The calls of `showStatus` on the shield as written; the stance is a 16-bit `int`. */
  function StatusOps(stance: I16, stanceName: string): seq<LcdOp>
  {
    StatusOpsWith(stance, stanceName, "Error")
  }

  /**
   * The calls of `showStatus` with `errorText` as the word the error branch
   * prints at column 8.
   */
  function StatusOpsWith(stance: I16, stanceName: string, errorText: string): seq<LcdOp>
  {
    StatusWordOps(stance, errorText) + StanceLineOps(stance, stanceName)
  }

  /** The second-line calls of `showStatus`: stance at column 0, ": " at column 1, the name at column 3. */
  function StanceLineOps(stance: I16, stanceName: string): seq<LcdOp>
  {
    [SetCursor(0, 1), Print(Dec(stance)), SetCursor(1, 1), Print(": "), SetCursor(3, 1), Print(stanceName)]
  }

  /** The first-line calls of `showStatus`: the label, the backlight and the status word. */
  function StatusWordOps(stance: I16, errorText: string): seq<LcdOp>
  {
    if stance <= 2 then WordOps("Status:", Display.BLUE, "OK", "    ")
    else WordOps("Status:", Display.RED, errorText, "")
  }

  /**
   * The label at column 0, the backlight, the word at column 8 and, when
   * there is one, the padding right after the word.
   */
  function WordOps(lbl: string, color: int, word: string, pad: string): seq<LcdOp>
  {
    [SetCursor(0, 0), Print(lbl), SetCursor(8, 0), SetBacklight(color), Print(word)]
    + (if pad == [] then [] else [SetCursor(8 + |word|, 0), Print(pad)])
  }

  /** The calls of `showTransition` on the shield: an unknown target prints no second line. */
  function TransitionOps(stanceTarget: I16): seq<LcdOp>
  {
    [SetCursor(0, 0), Print("Status: Moving  "), SetBacklight(Display.GREEN), SetCursor(0, 1)]
    + (if stanceTarget == 1 then [Print("Goto Two Legs   ")]
       else if stanceTarget == 2 then [Print("Goto Three Legs ")]
       else [])
  }

  /** The calls of `showRollCodeEnabled` on the shield: the backlight signals the flag. */
  function RollCodeOps(enabled: bool): seq<LcdOp>
  {
    [SetBacklight(if enabled then Display.VIOLET else Display.BLUE)]
  }

  /** The first-line calls of `showStatus`, written out for each branch. */
  lemma StatusWordOpsCases(stance: I16, errorText: string)
    ensures stance <= 2 ==>
              StatusWordOps(stance, errorText)
              == [SetCursor(0, 0), Print("Status:"), SetCursor(8, 0), SetBacklight(Display.BLUE),
                  Print("OK"), SetCursor(10, 0), Print("    ")]
    ensures stance > 2 ==>
              StatusWordOps(stance, errorText)
              == [SetCursor(0, 0), Print("Status:"), SetCursor(8, 0), SetBacklight(Display.RED), Print(errorText)]
  {
  }

  /** Six calls recorded one at a time are the six calls appended at once. */
  lemma AppendSix<T>(a: seq<T>, x1: T, x2: T, x3: T, x4: T, x5: T, x6: T)
    ensures a + [x1] + [x2] + [x3] + [x4] + [x5] + [x6] == a + [x1, x2, x3, x4, x5, x6]
  {
  }

  lemma AppendAssoc<T>(a: seq<T>, b: seq<T>, c: seq<T>)
    ensures a + (b + c) == a + b + c
  {
  }

  /** The shield display. `lastColor` is set by the constructor and not used by this tier. */
  class ShieldDisplay {
    var lastColor: int
    /** Every call made into the shield library so far. */
    ghost var trace: seq<LcdOp>

    constructor ()
      ensures lastColor == -1 && trace == []
    {
      lastColor := -1;
      trace := [];
    }

    /** `setBacklightColor`: only the backlight; there is no cache on this tier. */
    method SetBacklightColor(color: int)
      modifies this`trace
      ensures trace == old(trace) + [SetBacklight(color)]
    {
      trace := trace + [SetBacklight(color)];
    }

    /**
     * `showStatus`: "Status:" at the top left, then "OK" padded to column 13
     * on blue, or "Error" on red; on the second line the stance, ": " and
     * the name. "Error" is not padded (see `StaleErrorColumn`).
     */
    method ShowStatus(stance: I16, stanceName: string)
      requires Display.NoNul(stanceName)
      modifies this`trace
      ensures trace == old(trace) + StatusOps(stance, stanceName)
    {
      ghost var t0 := trace;
      trace := trace + [SetCursor(0, 0)];
      trace := trace + [Print("Status:")];
      if stance <= 2 {
        trace := trace + [SetCursor(8, 0)];
        trace := trace + [SetBacklight(Display.BLUE)];
        trace := trace + [Print("OK")];
        trace := trace + [SetCursor(10, 0)];
        trace := trace + [Print("    ")];
        assert trace == t0 + [SetCursor(0, 0), Print("Status:"), SetCursor(8, 0), SetBacklight(Display.BLUE),
                              Print("OK"), SetCursor(10, 0), Print("    ")];
      } else {
        trace := trace + [SetCursor(8, 0)];
        trace := trace + [SetBacklight(Display.RED)];
        trace := trace + [Print("Error")];
        assert trace == t0 + [SetCursor(0, 0), Print("Status:"), SetCursor(8, 0), SetBacklight(Display.RED),
                              Print("Error")];
      }
      StatusWordOpsCases(stance, "Error");
      ghost var t1 := trace;
      trace := trace + [SetCursor(0, 1)];
      trace := trace + [Print(Dec(stance))];
      trace := trace + [SetCursor(1, 1)];
      trace := trace + [Print(": ")];
      trace := trace + [SetCursor(3, 1)];
      trace := trace + [Print(stanceName)];
      AppendSix(t1, SetCursor(0, 1), Print(Dec(stance)), SetCursor(1, 1), Print(": "), SetCursor(3, 1), Print(stanceName));
      AppendAssoc(t0, StatusWordOps(stance, "Error"), StanceLineOps(stance, stanceName));
    }

    /** `showTransition`: the moving header on green, and the target's line only for a known target. */
    method ShowTransition(stanceTarget: I16)
      modifies this`trace
      ensures trace == old(trace) + TransitionOps(stanceTarget)
    {
      trace := trace + [SetCursor(0, 0)];
      trace := trace + [Print("Status: Moving  ")];
      trace := trace + [SetBacklight(Display.GREEN)];
      trace := trace + [SetCursor(0, 1)];
      if stanceTarget == 1 {
        trace := trace + [Print("Goto Two Legs   ")];
      } else if stanceTarget == 2 {
        trace := trace + [Print("Goto Three Legs ")];
      }
    }

    /** `showRollCodeEnabled`: violet when armed, blue otherwise. */
    method ShowRollCodeEnabled(enabled: bool)
      modifies this`trace
      ensures trace == old(trace) + RollCodeOps(enabled)
    {
      if enabled {
        trace := trace + [SetBacklight(Display.VIOLET)];
      } else {
        trace := trace + [SetBacklight(Display.BLUE)];
      }
    }
  }

  /** Printing `t` at `(col, row)` on a line of the panel. */
  lemma PrintAt(s: Lcd, col: int, row: int, t: string)
    requires WellFormed(s) && 0 <= col && (row == 0 || row == 1)
    ensures Run(s, [SetCursor(col, row), Print(t)])
         == s.(top := if row == 0 then Overwrite(s.top, col, t) else s.top,
               bottom := if row == 1 then Overwrite(s.bottom, col, t) else s.bottom,
               col := col + |t|, row := row)
  {
    var s1 := s.(col := col, row := row);
    PrintOverwrites(s1, t);
    assert Run(s, [SetCursor(col, row), Print(t)]) == Run(s1, [Print(t)]);
  }

  lemma RunCons(s: Lcd, op: LcdOp, rest: seq<LcdOp>)
    requires WellFormed(s)
    ensures Run(s, [op] + rest) == Run(Step(s, op), rest)
  {
    assert ([op] + rest)[0] == op;
    assert ([op] + rest)[1..] == rest;
  }

  /** A full-width line printed from the left edge replaces the line. */
  lemma PrintFullLine(s: Lcd, row: int, t: string, rest: seq<LcdOp>)
    requires WellFormed(s) && (row == 0 || row == 1) && |t| == COLUMNS
    ensures Run(s, [SetCursor(0, row), Print(t)] + rest)
         == Run(s.(top := if row == 0 then t else s.top, bottom := if row == 1 then t else s.bottom,
                   col := COLUMNS, row := row), rest)
  {
    PrintAt(s, 0, row, t);
    FullOverwrite(s.top, t);
    FullOverwrite(s.bottom, t);
    assert Run(s, [SetCursor(0, row), Print(t)])
        == s.(top := if row == 0 then t else s.top, bottom := if row == 1 then t else s.bottom,
              col := COLUMNS, row := row);
    RunAppend(s, [SetCursor(0, row), Print(t)], rest);
  }

  lemma FullOverwrite(line: string, t: string)
    requires |line| == COLUMNS && |t| == COLUMNS
    ensures Overwrite(line, 0, t) == t
  {
    assert t[..COLUMNS] == t;
    assert line[..0] == [] && line[COLUMNS..] == [];
  }

  /**
   * After `showTransition` the first line reads "Status: Moving  " and the
   * backlight is green; the second line names a known target and is left as
   * it was for any other target.
   */
  lemma TransitionScreen(s: Lcd, stanceTarget: I16)
    requires WellFormed(s)
    ensures var r := Run(s, TransitionOps(stanceTarget));
            && r.top == "Status: Moving  "
            && r.backlight == Display.GREEN
            && (stanceTarget == 1 ==> r.bottom == "Goto Two Legs   ")
            && (stanceTarget == 2 ==> r.bottom == "Goto Three Legs ")
            && (stanceTarget != 1 && stanceTarget != 2 ==> r.bottom == s.bottom)
  {
    var c := if stanceTarget == 1 then [Print("Goto Two Legs   ")]
             else if stanceTarget == 2 then [Print("Goto Three Legs ")]
             else [];
    MovingScreen(s, "Status: Moving  ", Display.GREEN, c);
  }

  /** The transition calls with the header text, the colour and the second-line calls as parameters. */
  lemma MovingScreen(s: Lcd, head: string, color: int, c: seq<LcdOp>)
    requires WellFormed(s) && |head| == COLUMNS
    requires c == [] || (c[0].Print? && |c[0].text| == COLUMNS && |c| == 1)
    ensures var r := Run(s, [SetCursor(0, 0), Print(head), SetBacklight(color), SetCursor(0, 1)] + c);
            && r.top == head && r.backlight == color
            && (c == [] ==> r.bottom == s.bottom)
            && (c != [] ==> r.bottom == c[0].text)
  {
    var b := [SetBacklight(color)] + ([SetCursor(0, 1)] + c);
    assert [SetCursor(0, 0), Print(head), SetBacklight(color), SetCursor(0, 1)] + c
        == [SetCursor(0, 0), Print(head)] + b;
    PrintFullLine(s, 0, head, b);
    var s1 := s.(top := head, col := COLUMNS, row := 0);
    RunCons(s1, SetBacklight(color), [SetCursor(0, 1)] + c);
    var s2 := s1.(backlight := color);
    if c == [] {
      assert [SetCursor(0, 1)] + c == [SetCursor(0, 1)];
      assert Run(s2, [SetCursor(0, 1)]) == s2.(col := 0, row := 1);
    } else {
      var t := c[0].text;
      assert c == [Print(t)];
      assert [SetCursor(0, 1)] + c == [SetCursor(0, 1), Print(t)] + [];
      PrintFullLine(s2, 1, t, []);
    }
  }

  /** Printing `t` at `(col, row)`, then the calls `rest`. */
  lemma PrintAtThen(s: Lcd, col: int, row: int, t: string, rest: seq<LcdOp>)
    requires WellFormed(s) && 0 <= col && (row == 0 || row == 1)
    ensures Run(s, [SetCursor(col, row), Print(t)] + rest)
         == Run(s.(top := if row == 0 then Overwrite(s.top, col, t) else s.top,
                   bottom := if row == 1 then Overwrite(s.bottom, col, t) else s.bottom,
                   col := col + |t|, row := row), rest)
  {
    RunAppend(s, [SetCursor(col, row), Print(t)], rest);
    PrintAt(s, col, row, t);
  }

  /** A backlight change between a cursor move and a print affects only the backlight. */
  lemma BacklightBeforePrint(s: Lcd, col: int, row: int, color: int, t: string, rest: seq<LcdOp>)
    requires WellFormed(s)
    ensures Run(s, [SetCursor(col, row), SetBacklight(color), Print(t)] + rest)
         == Run(s.(backlight := color), [SetCursor(col, row), Print(t)] + rest)
  {
    var l := [SetCursor(col, row), SetBacklight(color), Print(t)] + rest;
    assert l[0] == SetCursor(col, row) && l[1..][0] == SetBacklight(color);
    assert l[1..][1..] == [Print(t)] + rest;
    var m := [SetCursor(col, row), Print(t)] + rest;
    assert m[0] == SetCursor(col, row) && m[1..] == [Print(t)] + rest;
  }

  /** A print that fits on the line replaces exactly its columns. */
  lemma OverwriteFits(line: string, col: int, t: string)
    requires |line| == COLUMNS && 0 <= col && col + |t| <= COLUMNS
    ensures Overwrite(line, col, t) == line[..col] + t + line[col + |t|..]
  {
    if col == COLUMNS {
      assert line[..col] == line && line[col..] == [];
    } else {
      assert t[..|t|] == t;
    }
  }

  /** A print leaves the columns left of the cursor alone and puts its first character at the cursor. */
  lemma OverwriteKeepsLeft(line: string, col: int, t: string)
    requires |line| == COLUMNS && 0 <= col <= COLUMNS
    ensures Overwrite(line, col, t)[..col] == line[..col]
    ensures col < COLUMNS && |t| > 0 ==> Overwrite(line, col, t)[col] == t[0]
  {
  }

  /**
   * The first-line calls of `showStatus` with the label, colour, word and
   * padding as parameters: the label from column 0, the word from column 8,
   * the padding (when there is one) right after the word.
   */
  lemma WordScreen(s: Lcd, lbl: string, color: int, word: string, pad: string)
    requires WellFormed(s) && |lbl| == 7 && 8 + |word| + |pad| <= COLUMNS
    ensures var r := Run(s, WordOps(lbl, color, word, pad));
            && r.top == lbl + s.top[7..8] + word + pad + s.top[8 + |word| + |pad|..]
            && r.bottom == s.bottom
            && r.backlight == color
  {
    var tailOps := if pad == [] then [] else [SetCursor(8 + |word|, 0), Print(pad)];
    var rest := [SetCursor(8, 0), SetBacklight(color), Print(word)] + tailOps;
    assert [SetCursor(0, 0), Print(lbl), SetCursor(8, 0), SetBacklight(color), Print(word)] + tailOps
        == [SetCursor(0, 0), Print(lbl)] + rest;
    PrintAtThen(s, 0, 0, lbl, rest);
    var s1 := s.(top := Overwrite(s.top, 0, lbl), col := 7, row := 0);
    BacklightBeforePrint(s1, 8, 0, color, word, tailOps);
    var s2 := s1.(backlight := color);
    PrintAtThen(s2, 8, 0, word, tailOps);
    var s3 := s2.(top := Overwrite(s2.top, 8, word), col := 8 + |word|, row := 0);
    var r := Run(s3, tailOps);
    assert Run(s, WordOps(lbl, color, word, pad)) == r;
    if pad == [] {
      assert r == s3;
    } else {
      assert tailOps == [SetCursor(8 + |word|, 0), Print(pad)] + [];
      PrintAtThen(s3, 8 + |word|, 0, pad, []);
      assert r == s3.(top := Overwrite(s3.top, 8 + |word|, pad), col := 8 + |word| + |pad|, row := 0);
    }
    assert r.bottom == s.bottom && r.backlight == color;
    WordLineText(s.top, lbl, word, pad);
  }

  /** The first line's text after the label, the word and the padding. */
  lemma WordLineText(line: string, lbl: string, word: string, pad: string)
    requires |line| == COLUMNS && |lbl| == 7 && 8 + |word| + |pad| <= COLUMNS
    ensures var t1 := Overwrite(line, 0, lbl);
            var t2 := Overwrite(t1, 8, word);
            (if pad == [] then t2 else Overwrite(t2, 8 + |word|, pad))
            == lbl + line[7..8] + word + pad + line[8 + |word| + |pad|..]
  {
    var t1 := Overwrite(line, 0, lbl);
    OverwriteFits(line, 0, lbl);
    assert t1 == lbl + line[7..];
    var t2 := Overwrite(t1, 8, word);
    OverwriteFits(t1, 8, word);
    assert t1[..8] == lbl + line[7..8];
    assert t1[8 + |word|..] == line[8 + |word|..];
    assert t2 == lbl + line[7..8] + word + line[8 + |word|..];
    if pad == [] {
      assert word + pad == word;
    } else {
      OverwriteFits(t2, 8 + |word|, pad);
      assert t2[..8 + |word|] == lbl + line[7..8] + word;
      assert t2[8 + |word| + |pad|..] == line[8 + |word| + |pad|..];
    }
  }

  /** The effect of the second-line calls of `showStatus`. */
  lemma SecondLine(s: Lcd, stance: I16, stanceName: string)
    requires WellFormed(s)
    ensures var r := Run(s, StanceLineOps(stance, stanceName));
            && r.top == s.top && r.backlight == s.backlight
            && r.bottom == Overwrite(Overwrite(Overwrite(s.bottom, 0, Dec(stance)), 1, ": "), 3, stanceName)
  {
    var d := Dec(stance);
    var n := [SetCursor(3, 1), Print(stanceName)] + [];
    var c := [SetCursor(1, 1), Print(": ")] + n;
    assert StanceLineOps(stance, stanceName) == [SetCursor(0, 1), Print(d)] + c;
    PrintAtThen(s, 0, 1, d, c);
    var s1 := s.(bottom := Overwrite(s.bottom, 0, d), col := |d|, row := 1);
    PrintAtThen(s1, 1, 1, ": ", n);
    var s2 := s1.(bottom := Overwrite(s1.bottom, 1, ": "), col := 3, row := 1);
    PrintAtThen(s2, 3, 1, stanceName, []);
  }

  /**
   * After `showStatus` (with `errorText` as the error word) the first line
   * reads "Status:", keeps its eighth column, and shows "OK    " or the error
   * word from column 8; the rest of the line is left as it was. The backlight
   * is blue for stances up to 2, red otherwise.
   */
  lemma StatusTopLine(s: Lcd, stance: I16, stanceName: string, errorText: string)
    requires WellFormed(s) && |errorText| <= 8
    ensures var r := Run(s, StatusOpsWith(stance, stanceName, errorText));
            && r.top == (if stance <= 2 then "Status:" + s.top[7..8] + "OK    " + s.top[14..]
                         else "Status:" + s.top[7..8] + errorText + s.top[8 + |errorText|..])
            && r.backlight == (if stance <= 2 then Display.BLUE else Display.RED)
  {
    var tail := StanceLineOps(stance, stanceName);
    var w := StatusWordOps(stance, errorText);
    RunAppend(s, w, tail);
    StatusWordLine(s, stance, errorText);
    SecondLine(Run(s, w), stance, stanceName);
  }

  /** The effect of the first-line calls of `showStatus`. */
  lemma StatusWordLine(s: Lcd, stance: I16, errorText: string)
    requires WellFormed(s) && |errorText| <= 8
    ensures var r := Run(s, StatusWordOps(stance, errorText));
            && r.top == (if stance <= 2 then "Status:" + s.top[7..8] + "OK    " + s.top[14..]
                         else "Status:" + s.top[7..8] + errorText + s.top[8 + |errorText|..])
            && r.bottom == s.bottom
            && r.backlight == (if stance <= 2 then Display.BLUE else Display.RED)
  {
    if stance <= 2 {
      OkWordLine(s);
    } else {
      ErrorWordLine(s, errorText);
    }
  }

  lemma ErrorWordLine(s: Lcd, errorText: string)
    requires WellFormed(s) && |errorText| <= 8
    ensures var r := Run(s, WordOps("Status:", Display.RED, errorText, ""));
            && r.top == "Status:" + s.top[7..8] + errorText + s.top[8 + |errorText|..]
            && r.bottom == s.bottom && r.backlight == Display.RED
  {
    WordScreen(s, "Status:", Display.RED, errorText, "");
    assert errorText + "" == errorText;
  }

  lemma OkWordLine(s: Lcd)
    requires WellFormed(s)
    ensures var r := Run(s, WordOps("Status:", Display.BLUE, "OK", "    "));
            && r.top == "Status:" + s.top[7..8] + "OK    " + s.top[14..]
            && r.bottom == s.bottom && r.backlight == Display.BLUE
  {
    WordScreen(s, "Status:", Display.BLUE, "OK", "    ");
    OkPadded();
  }

  lemma OkPadded()
    ensures "OK" + "    " == "OK    "
  {
  }

  /**
   * After `showStatus` the second line begins with the stance's first digit
   * (or sign) and ": ", then the stance name when it fits. A stance of more
   * than one character loses its second character to the ": ".
   */
  lemma StatusBottomLine(s: Lcd, stance: I16, stanceName: string, errorText: string)
    requires WellFormed(s) && |errorText| <= 8
    ensures var r := Run(s, StatusOpsWith(stance, stanceName, errorText));
            && r.bottom[0] == Dec(stance)[0]
            && r.bottom[1..3] == ": "
            && (3 + |stanceName| <= COLUMNS ==> r.bottom[3..3 + |stanceName|] == stanceName)
            && (0 <= stance <= 9 && 3 + |stanceName| <= COLUMNS ==>
                  r.bottom == Dec(stance) + ": " + stanceName + s.bottom[3 + |stanceName|..])
  {
    var tail := StanceLineOps(stance, stanceName);
    var w := StatusWordOps(stance, errorText);
    RunAppend(s, w, tail);
    StatusWordLine(s, stance, errorText);
    SecondLine(Run(s, w), stance, stanceName);
    assert 0 <= stance <= 9 ==> |Dec(stance)| == 1;
    StanceLineText(s.bottom, Dec(stance), stanceName);
  }

  /** The second line's text after the stance, ": " and the name. */
  lemma StanceLineText(line: string, d: string, name: string)
    requires |line| == COLUMNS && |d| > 0
    ensures var b := Overwrite(Overwrite(Overwrite(line, 0, d), 1, ": "), 3, name);
            && b[0] == d[0]
            && b[1..3] == ": "
            && (3 + |name| <= COLUMNS ==> b[3..3 + |name|] == name)
            && (|d| == 1 && 3 + |name| <= COLUMNS ==> b == d + ": " + name + line[3 + |name|..])
  {
    var b1 := Overwrite(line, 0, d);
    var b2 := Overwrite(b1, 1, ": ");
    var b3 := Overwrite(b2, 3, name);
    OverwriteKeepsLeft(line, 0, d);
    OverwriteFits(b1, 1, ": ");
    OverwriteKeepsLeft(b2, 3, name);
    assert b3[..3] == b2[..3];
    assert b2[1..3] == ": ";
    if 3 + |name| <= COLUMNS {
      OverwriteFits(b2, 3, name);
      assert b3[3..3 + |name|] == name;
      if |d| == 1 {
        OverwriteFits(line, 0, d);
        assert b3[..3] == d + ": ";
        assert b3[3 + |name|..] == line[3 + |name|..];
      }
    }
  }

  /**
   * On the shield the error word is not padded: after a transition, an
   * error status leaves the last letter of "Moving" on the first line.
   */
  lemma StaleErrorColumn(s: Lcd, stanceTarget: I16, stance: I16, stanceName: string)
    requires WellFormed(s) && stance > 2
    ensures Run(Run(s, TransitionOps(stanceTarget)), StatusOps(stance, stanceName)).top == "Status: Errorg  "
  {
    TransitionScreen(s, stanceTarget);
    var m := Run(s, TransitionOps(stanceTarget));
    StatusTopLine(m, stance, stanceName, "Error");
    ErrorOverMoving(m.top);
  }

  lemma ErrorOverMoving(top: string)
    requires top == "Status: Moving  "
    ensures "Status:" + top[7..8] + "Error" + top[13..] == "Status: Errorg  "
  {
  }

  /** `showStatus` with the error word padded to the width of "Moving", as the OK branch pads "OK". */
  function PaddedStatusOps(stance: I16, stanceName: string): seq<LcdOp>
  {
    StatusOpsWith(stance, stanceName, "Error ")
  }

  /**
   * With the padding, columns 8 to 13 show exactly the status word whatever
   * was on the screen before.
   */
  lemma PaddedStatusShowsWord(s: Lcd, stance: I16, stanceName: string)
    requires WellFormed(s)
    ensures var r := Run(s, PaddedStatusOps(stance, stanceName));
            && r.top[..7] == "Status:"
            && r.top[8..14] == (if stance <= 2 then "OK    " else "Error ")
  {
    StatusTopLine(s, stance, stanceName, "Error ");
  }

  /** `showRollCodeEnabled` on the shield changes only the backlight: violet when armed, else blue. */
  lemma RollCodeScreen(s: Lcd, enabled: bool)
    requires WellFormed(s)
    ensures Run(s, RollCodeOps(enabled)) == s.(backlight := if enabled then Display.VIOLET else Display.BLUE)
  {
  }
}
