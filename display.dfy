/**
 * The status display (src/display.h, src/display.cpp), Waveshare tier.
 *
 * `DisplayManager` drives an ST7789 TFT and a strip of WS2812 LEDs. The
 * calls into the Adafruit GFX library are recorded, in order, in the ghost
 * trace `trace`; the LED strip is the array `leds`. The ST77XX colour values
 * are not part of this model: they form a `Palette` given at construction,
 * required only to be distinct 16-bit values. The TFT's `width()` and
 * `height()` after `begin()` are construction parameters as well.
 */
module Display {
  import opened Fixed

  datatype Option<T> = None | Some(value: T)

  /**
   * The eight named colours of the display header, as indices into a
   * palette of panel colour values. The indices are the colour values of the
   * RGB LCD shield (src/display.h:30-37).
   */
  const OFF := 0
  const RED := 1
  const GREEN := 2
  const YELLOW := 3
  const BLUE := 4
  const VIOLET := 5
  const TEAL := 6
  const WHITE := 7

  /** The panel colour value of each named colour. */
  type Palette = p: seq<int> | |p| == 8 witness [0, 0, 0, 0, 0, 0, 0, 0]

  /** Colour values are 16-bit and the eight names denote eight different colours. */
  predicate ValidPalette(p: Palette)
  {
    (forall i :: 0 <= i < 8 ==> 0 <= p[i] < 0x1_0000)
    && (forall i, j :: 0 <= i < j < 8 ==> p[i] != p[j])
  }

  /** The FastLED colours the strip is set to. */
  datatype Rgb = Black | Red | Yellow | Green | Cyan | Blue | Purple | White

  const NUM_LEDS := 1
  const TEXT_X := 10
  const TEXT_Y := 10
  const LINE_HEIGHT := 24
  const INDICATOR_RADIUS := 18
  const INDICATOR_MARGIN := 8
  /** `sizeof(lcdText) - 1`: the longest text `snprintf` leaves in the buffer. */
  const TEXT_CAPACITY := 255

  /** One call into the display library. Both `write(p, n)` and `print(p)` are a `Write`. */
  datatype DrawOp =
    | FillScreen(color: int)
    | SetTextColor(fg: int, bg: int)
    | SetCursor(x: int, y: int)
    | Write(text: string)
    | FillCircle(x: int, y: int, r: int, color: int)

  /** A C string: no character is the terminator. */
  predicate NoNul(s: string)
  {
    forall i :: 0 <= i < |s| ==> s[i] != '\0'
  }

  predicate NoNewline(s: string)
  {
    forall i :: 0 <= i < |s| ==> s[i] != '\n'
  }

  /** The LED colour for a panel colour: the eight named colours, anything else Black. */
  function LedColor(p: Palette, color: int): (c: Rgb)
    requires ValidPalette(p)
    ensures c == Red <==> color == p[RED]
    ensures c == Yellow <==> color == p[YELLOW]
    ensures c == Green <==> color == p[GREEN]
    ensures c == Cyan <==> color == p[TEAL]
    ensures c == Blue <==> color == p[BLUE]
    ensures c == Purple <==> color == p[VIOLET]
    ensures c == White <==> color == p[WHITE]
    ensures c == Black <==> forall i :: 1 <= i < 8 ==> color != p[i]
  {
    if color == p[OFF] then Black
    else if color == p[RED] then Red
    else if color == p[YELLOW] then Yellow
    else if color == p[GREEN] then Green
    else if color == p[TEAL] then Cyan
    else if color == p[BLUE] then Blue
    else if color == p[VIOLET] then Purple
    else if color == p[WHITE] then White
    else Black
  }

  /**
   * `strchr(m + from, '\n')`: the index of the first line feed at or after
   * `from`, if there is one.
   */
  function FindNewline(m: string, from: nat): (r: Option<nat>)
    requires from <= |m|
    ensures r.Some? ==> from <= r.value < |m| && m[r.value] == '\n'
                        && forall i :: from <= i < r.value ==> m[i] != '\n'
    ensures r.None? ==> forall i :: from <= i < |m| ==> m[i] != '\n'
    decreases |m| - from
  {
    if from == |m| then None
    else if m[from] == '\n' then Some(from)
    else FindNewline(m, from + 1)
  }

  /** The segments of `m[start..]` between line feeds; a final line feed opens no segment. */
  function Lines(m: string, start: nat): seq<string>
    requires start <= |m|
    decreases |m| - start
  {
    if start == |m| then []
    else match FindNewline(m, start)
      case Some(e) => [m[start..e]] + Lines(m, e + 1)
      case None => [m[start..]]
  }

  /** The segments separated by line feeds. */
  function Join(lines: seq<string>): string
  {
    if |lines| == 0 then ""
    else if |lines| == 1 then lines[0]
    else lines[0] + "\n" + Join(lines[1..])
  }

  /** `t` without one trailing line feed. */
  function Chomp(t: string): string
  {
    if |t| > 0 && t[|t| - 1] == '\n' then t[..|t| - 1] else t
  }

  /**
   * The calls `setLCDText` makes from the segment starting at `start`, the
   * cursor being on the line at height `cy`.
   */
  function LineOps(m: string, start: nat, cy: int): seq<DrawOp>
    requires start <= |m|
    decreases |m| - start
  {
    if start == |m| then []
    else match FindNewline(m, start)
      case Some(e) => [Write(m[start..e]), SetCursor(TEXT_X, cy + LINE_HEIGHT)] + LineOps(m, e + 1, cy + LINE_HEIGHT)
      case None => [Write(m[start..])]
  }

  /** A segment ended by a line feed is written, then the cursor moves one line down. */
  lemma LineOpsSome(m: string, start: nat, cy: int, e: nat)
    requires start < |m| && FindNewline(m, start) == Some(e)
    ensures LineOps(m, start, cy)
         == [Write(m[start..e]), SetCursor(TEXT_X, cy + LINE_HEIGHT)] + LineOps(m, e + 1, cy + LINE_HEIGHT)
  {
  }

  lemma LineOpsNone(m: string, start: nat, cy: int)
    requires start < |m| && FindNewline(m, start).None?
    ensures LineOps(m, start, cy) == [Write(m[start..])]
  {
  }

  lemma SeqAppendPair<T>(a: seq<T>, x: T, y: T, rest: seq<T>)
    ensures a + [x] + [y] + rest == a + ([x, y] + rest)
  {
  }

  /** The calls `setLCDText(m)` makes. */
  function TextOps(m: string): seq<DrawOp>
  {
    [SetCursor(TEXT_X, TEXT_Y)] + LineOps(m, 0, TEXT_Y)
  }

  /**
   * The reference layout: line `k` of the screen is written after a cursor
   * move to `(10, 10 + 24 k)`; when the text ends open (empty, or with a
   * line feed) the cursor is left at the start of the next line.
   */
  function Placed(lines: seq<string>, k: nat, open: bool): seq<DrawOp>
  {
    if |lines| == 0 then (if open then [SetCursor(TEXT_X, TEXT_Y + LINE_HEIGHT * k)] else [])
    else [SetCursor(TEXT_X, TEXT_Y + LINE_HEIGHT * k), Write(lines[0])] + Placed(lines[1..], k + 1, open)
  }

  /** Whether the text ends where a new line would start: empty, or ending with a line feed. */
  predicate EndsOpen(m: string, start: nat)
    requires start <= |m|
  {
    start == |m| || m[|m| - 1] == '\n'
  }

  lemma {:induction false} LineOpsArePlaced(m: string, start: nat, k: nat)
    requires start <= |m|
    ensures [SetCursor(TEXT_X, TEXT_Y + LINE_HEIGHT * k)] + LineOps(m, start, TEXT_Y + LINE_HEIGHT * k)
         == Placed(Lines(m, start), k, EndsOpen(m, start))
    decreases |m| - start
  {
    if start < |m| {
      match FindNewline(m, start)
      case Some(e) =>
        LineOpsArePlaced(m, e + 1, k + 1);
        PlacedSome(m, start, k, e);
      case None =>
        PlacedNone(m, start, k);
    }
  }

  /** A line ended by a line feed is written at its height, and the cursor moves to the next. */
  lemma PlacedSome(m: string, start: nat, k: nat, e: nat)
    requires start < |m| && FindNewline(m, start) == Some(e)
    requires [SetCursor(TEXT_X, TEXT_Y + LINE_HEIGHT * (k + 1))] + LineOps(m, e + 1, TEXT_Y + LINE_HEIGHT * (k + 1))
          == Placed(Lines(m, e + 1), k + 1, EndsOpen(m, e + 1))
    ensures [SetCursor(TEXT_X, TEXT_Y + LINE_HEIGHT * k)] + LineOps(m, start, TEXT_Y + LINE_HEIGHT * k)
         == Placed(Lines(m, start), k, EndsOpen(m, start))
  {
    var y := TEXT_Y + LINE_HEIGHT * k;
    var y' := TEXT_Y + LINE_HEIGHT * (k + 1);
    assert y + LINE_HEIGHT == y';
    LineOpsSome(m, start, y, e);
    LinesSome(m, start, e);
    assert EndsOpen(m, e + 1) == EndsOpen(m, start);
    PlacedStep(m[start..e], Lines(m, e + 1), LineOps(m, e + 1, y'), k, EndsOpen(m, start));
  }

  /** The last line, not ended by a line feed, is written and the cursor stays on its line. */
  lemma PlacedNone(m: string, start: nat, k: nat)
    requires start < |m| && FindNewline(m, start).None?
    ensures [SetCursor(TEXT_X, TEXT_Y + LINE_HEIGHT * k)] + LineOps(m, start, TEXT_Y + LINE_HEIGHT * k)
         == Placed(Lines(m, start), k, EndsOpen(m, start))
  {
    var y := TEXT_Y + LINE_HEIGHT * k;
    LineOpsNone(m, start, y);
    LinesNone(m, start);
    assert !EndsOpen(m, start) by {
      assert m[|m| - 1] != '\n';
    }
    PlacedCons(m[start..], [], k, false);
    assert [SetCursor(TEXT_X, y), Write(m[start..])] + [] == [SetCursor(TEXT_X, y)] + [Write(m[start..])];
  }

  /** One more line in front of a placed layout. */
  lemma PlacedStep(seg: string, rest: seq<string>, tail: seq<DrawOp>, k: nat, open: bool)
    requires [SetCursor(TEXT_X, TEXT_Y + LINE_HEIGHT * (k + 1))] + tail == Placed(rest, k + 1, open)
    ensures [SetCursor(TEXT_X, TEXT_Y + LINE_HEIGHT * k)]
            + ([Write(seg), SetCursor(TEXT_X, TEXT_Y + LINE_HEIGHT * k + LINE_HEIGHT)] + tail)
         == Placed([seg] + rest, k, open)
  {
    var y := TEXT_Y + LINE_HEIGHT * k;
    var y' := TEXT_Y + LINE_HEIGHT * (k + 1);
    assert y + LINE_HEIGHT == y';
    PlacedCons(seg, rest, k, open);
    SeqRegroup(SetCursor(TEXT_X, y), Write(seg), SetCursor(TEXT_X, y'), tail);
  }

  /** The reference layout of a first line followed by further lines. */
  lemma PlacedCons(line: string, rest: seq<string>, k: nat, open: bool)
    ensures Placed([line] + rest, k, open)
         == [SetCursor(TEXT_X, TEXT_Y + LINE_HEIGHT * k), Write(line)] + Placed(rest, k + 1, open)
  {
    assert ([line] + rest)[0] == line;
    assert ([line] + rest)[1..] == rest;
  }

  lemma SeqRegroup<T>(a: T, b: T, c: T, rest: seq<T>)
    ensures [a] + ([b, c] + rest) == [a, b] + ([c] + rest)
  {
  }

  lemma {:induction false} JoinLinesFrom(m: string, start: nat)
    requires start <= |m|
    ensures Join(Lines(m, start)) == Chomp(m[start..])
    decreases |m| - start
  {
    if start < |m| {
      match FindNewline(m, start)
      case Some(e) =>
        JoinLinesFrom(m, e + 1);
        JoinLinesStep(m, start, e);
      case None =>
        JoinLastLine(m, start);
    }
  }

  /** A segment ended by a line feed is joined to the segments after it. */
  lemma JoinLinesStep(m: string, start: nat, e: nat)
    requires start < |m| && FindNewline(m, start) == Some(e)
    requires Join(Lines(m, e + 1)) == Chomp(m[e + 1..])
    ensures Join(Lines(m, start)) == Chomp(m[start..])
  {
    var seg := m[start..e];
    var u := m[e + 1..];
    var rest := Lines(m, e + 1);
    assert Lines(m, start) == [seg] + rest;
    assert m[start..] == seg + "\n" + u;
    assert |rest| > 0 <==> |u| > 0;
    JoinSegment(seg, u, rest);
  }

  /** Joining one more segment before `rest` puts a line feed between them. */
  lemma JoinSegment(seg: string, u: string, rest: seq<string>)
    requires Join(rest) == Chomp(u)
    requires |rest| > 0 <==> |u| > 0
    ensures Join([seg] + rest) == Chomp(seg + "\n" + u)
  {
    if |u| > 0 {
      assert ([seg] + rest)[0] == seg;
      assert ([seg] + rest)[1..] == rest;
      ChompAfterPrefix(seg + "\n", u);
    } else {
      assert [seg] + rest == [seg];
      var t := seg + "\n" + u;
      assert t[..|t| - 1] == seg;
    }
  }

  /** The last segment, not ended by a line feed, is the rest of the text. */
  lemma JoinLastLine(m: string, start: nat)
    requires start < |m| && FindNewline(m, start).None?
    ensures Join(Lines(m, start)) == Chomp(m[start..])
  {
    var t := m[start..];
    assert Lines(m, start) == [t];
    assert t[|t| - 1] == m[|m| - 1];
  }

  /** Removing a trailing line feed from a nonempty suffix commutes with a prefix. */
  lemma ChompAfterPrefix(p: string, u: string)
    requires |u| > 0
    ensures Chomp(p + u) == p + Chomp(u)
  {
    var t := p + u;
    assert t[|t| - 1] == u[|u| - 1];
    if u[|u| - 1] == '\n' {
      assert t[..|t| - 1] == p + u[..|u| - 1];
    }
  }

  lemma {:induction false} LinesHaveNoNewline(m: string, start: nat)
    requires start <= |m|
    ensures forall k :: 0 <= k < |Lines(m, start)| ==> NoNewline(Lines(m, start)[k])
    decreases |m| - start
  {
    if start < |m| {
      match FindNewline(m, start)
      case Some(e) =>
        LinesHaveNoNewline(m, e + 1);
        LinesSome(m, start, e);
        SegmentHasNoNewline(m, start, e);
        SegmentsCons(m[start..e], Lines(m, e + 1));
      case None =>
        LinesNone(m, start);
        LastSegmentHasNoNewline(m, start);
    }
  }

  /** A segment without line feeds before segments without line feeds. */
  lemma SegmentsCons(seg: string, rest: seq<string>)
    requires NoNewline(seg)
    requires forall k :: 0 <= k < |rest| ==> NoNewline(rest[k])
    ensures forall k :: 0 <= k < |[seg] + rest| ==> NoNewline(([seg] + rest)[k])
  {
    assert forall k :: 1 <= k < |[seg] + rest| ==> ([seg] + rest)[k] == rest[k - 1];
  }

  /** A segment ended by a line feed holds none, and starts the segments. */
  lemma LinesSome(m: string, start: nat, e: nat)
    requires start < |m| && FindNewline(m, start) == Some(e)
    ensures Lines(m, start) == [m[start..e]] + Lines(m, e + 1)
  {
  }

  lemma SegmentHasNoNewline(m: string, start: nat, e: nat)
    requires start < |m| && FindNewline(m, start) == Some(e)
    ensures NoNewline(m[start..e])
  {
    assert forall i :: 0 <= i < e - start ==> m[start..e][i] == m[start + i];
  }

  /** Without a further line feed the rest of the text is the last segment. */
  lemma LinesNone(m: string, start: nat)
    requires start < |m| && FindNewline(m, start).None?
    ensures Lines(m, start) == [m[start..]]
  {
  }

  lemma LastSegmentHasNoNewline(m: string, start: nat)
    requires start < |m| && FindNewline(m, start).None?
    ensures NoNewline(m[start..])
  {
    assert forall i :: 0 <= i < |m| - start ==> m[start..][i] == m[start + i];
  }

  /**
   * `setLCDText(m)` writes segment `k` of `m` at `(10, 10 + 24 k)`, and the
   * segments joined by line feeds give back `m` without its trailing line
   * feed: an empty message or a last line feed only moves the cursor.
   */
  lemma TextLayout(m: string)
    ensures TextOps(m) == Placed(Lines(m, 0), 0, EndsOpen(m, 0))
    ensures Join(Lines(m, 0)) == Chomp(m)
    ensures forall k :: 0 <= k < |Lines(m, 0)| ==> NoNewline(Lines(m, 0)[k])
  {
    LineOpsArePlaced(m, 0, 0);
    JoinLinesFrom(m, 0);
    LinesHaveNoNewline(m, 0);
    assert m[0..] == m;
  }

  /** How many full-screen fills `ops` contains. */
  function Fills(ops: seq<DrawOp>): nat
  {
    if |ops| == 0 then 0 else (if ops[0].FillScreen? then 1 else 0) + Fills(ops[1..])
  }

  lemma {:induction false} FillsAppend(a: seq<DrawOp>, b: seq<DrawOp>)
    ensures Fills(a + b) == Fills(a) + Fills(b)
    decreases |a|
  {
    if |a| > 0 {
      FillsAppend(a[1..], b);
      assert (a + b)[0] == a[0];
      assert (a + b)[1..] == a[1..] + b;
    } else {
      assert a + b == b;
    }
  }

  lemma {:induction false} LineOpsDoNotFill(m: string, start: nat, cy: int)
    requires start <= |m|
    ensures Fills(LineOps(m, start, cy)) == 0
    decreases |m| - start
  {
    if start < |m| {
      match FindNewline(m, start)
      case Some(e) =>
        LineOpsDoNotFill(m, e + 1, cy + LINE_HEIGHT);
        FillsAppend([Write(m[start..e]), SetCursor(TEXT_X, cy + LINE_HEIGHT)], LineOps(m, e + 1, cy + LINE_HEIGHT));
      case None =>
    }
  }

  /** Writing text never clears the screen. */
  lemma TextDoesNotFill(m: string)
    ensures Fills(TextOps(m)) == 0
  {
    LineOpsDoNotFill(m, 0, TEXT_Y);
    FillsAppend([SetCursor(TEXT_X, TEXT_Y)], LineOps(m, 0, TEXT_Y));
  }

  /** The first line of the status text. */
  function StatusHeader(ok: bool): string
  {
    if ok then "Status: OK     " else "Status: Error  "
  }

  /** What `showStatus` formats into the text buffer (before truncation to its capacity). */
  function StatusText(ok: bool, stance: I32, stanceName: string): string
  {
    StatusHeader(ok) + "\n" + Dec(stance) + ": " + stanceName
  }

  /**
   * A stance name without line feeds gives exactly two screen lines: the
   * header, and the stance number with the name; the number reads back as
   * the stance.
   */
  lemma StatusTextLines(ok: bool, stance: I32, stanceName: string)
    requires NoNewline(stanceName)
    ensures Lines(StatusText(ok, stance, stanceName), 0) == [StatusHeader(ok), Dec(stance) + ": " + stanceName]
    ensures |StatusHeader(ok)| == 15
  {
    var d := Dec(stance);
    assert NoNewline(d) by {
      assert forall i :: 0 <= i < |d| ==> d[i] == '-' || '0' <= d[i] <= '9';
    }
    NoNewlineConcat(d, ": ");
    NoNewlineConcat(d + ": ", stanceName);
    TwoLines(StatusHeader(ok), d + ": " + stanceName);
    StatusTextSplits(ok, d, stanceName);
  }

  lemma StatusTextSplits(ok: bool, d: string, stanceName: string)
    ensures StatusHeader(ok) + "\n" + d + ": " + stanceName == StatusHeader(ok) + "\n" + (d + ": " + stanceName)
  {
  }

  lemma NoNewlineConcat(a: string, b: string)
    requires NoNewline(a) && NoNewline(b)
    ensures NoNewline(a + b)
  {
    assert forall i :: |a| <= i < |a + b| ==> (a + b)[i] == b[i - |a|];
  }

  /** A first and a nonempty second line, both without line feeds, joined by one. */
  lemma TwoLines(first: string, second: string)
    requires NoNewline(first) && NoNewline(second) && |second| > 0
    ensures Lines(first + "\n" + second, 0) == [first, second]
  {
    var m := first + "\n" + second;
    var n := |first|;
    assert m[n] == '\n';
    assert forall i :: 0 <= i < n ==> m[i] == first[i];
    assert forall i :: n + 1 <= i < |m| ==> m[i] == second[i - n - 1];
    assert FindNewline(m, 0) == Some(n);
    assert FindNewline(m, n + 1) == None;
    assert m[0..n] == first;
    assert m[n + 1..] == second;
    assert Lines(m, n + 1) == [second];
  }

  /** The first line of every transition text. */
  const MOVING_HEADER := "Status: Moving  "

  /**
   * What `showTransition` formats into the text buffer for a target stance:
   * each of its three messages is the moving header, a line feed and the
   * target's line.
   */
  function TransitionText(stanceTarget: int): string
  {
    MOVING_HEADER + "\n" + TransitionLine(stanceTarget)
  }

  /** The second screen line of the transition text. */
  function TransitionLine(stanceTarget: int): string
  {
    if stanceTarget == 1 then "Goto Two Legs   "
    else if stanceTarget == 2 then "Goto Three Legs "
    else "Goto Unknown    "
  }

  /**
   * The transition text is two lines, each padded to the 16 columns of the
   * smaller display, so that a shorter message overwrites a longer one.
   */
  lemma TransitionTextLines(stanceTarget: int)
    ensures Lines(TransitionText(stanceTarget), 0) == [MOVING_HEADER, TransitionLine(stanceTarget)]
    ensures |MOVING_HEADER| == 16 && |TransitionLine(stanceTarget)| == 16
  {
    TwoLines(MOVING_HEADER, TransitionLine(stanceTarget));
  }

  /** Every transition text fits the text buffer and holds no terminator. */
  lemma TransitionTextIsCString(stanceTarget: int)
    ensures NoNul(TransitionText(stanceTarget)) && |TransitionText(stanceTarget)| <= TEXT_CAPACITY
  {
    NoNulConcat(MOVING_HEADER, "\n");
    NoNulConcat(MOVING_HEADER + "\n", TransitionLine(stanceTarget));
  }

  lemma NoNulConcat(a: string, b: string)
    requires NoNul(a) && NoNul(b)
    ensures NoNul(a + b)
  {
    assert forall i :: |a| <= i < |a + b| ==> (a + b)[i] == b[i - |a|];
  }

  /** The display: the cached background colour, the current text and the roll-code flag. */
  class DisplayManager {
    const palette: Palette
    /** `tft->width()` and `tft->height()`. */
    const width: int
    const height: int
    const leds: array<Rgb>
    var lastColor: int
    var lcdText: string
    var rollCodeEnabled: bool
    /** Every call made into the display library so far. */
    ghost var trace: seq<DrawOp>

    /** The text fits the `char[256]` buffer and there is one colour per LED. */
    predicate Valid()
      reads this
    {
      ValidPalette(palette) && |lcdText| <= TEXT_CAPACITY && NoNul(lcdText) && leds.Length == NUM_LEDS
    }

    /**
     * No colour is cached yet (-1 is no 16-bit colour), so the first colour
     * set repaints. The LED buffer is allocated but not initialised.
     */
    constructor (palette: Palette, width: int, height: int)
      requires ValidPalette(palette)
      ensures Valid() && fresh(leds)
      ensures this.palette == palette && this.width == width && this.height == height
      ensures lastColor == -1 && lcdText == "" && !rollCodeEnabled && trace == []
    {
      this.palette := palette;
      this.width := width;
      this.height := height;
      leds := new Rgb[NUM_LEDS];
      lastColor := -1;
      lcdText := "";
      rollCodeEnabled := false;
      trace := [];
    }

    /** The circle `drawRollCodeIndicator` paints: violet when armed, else the background. */
    function IndicatorOp(armed: bool, background: int): (op: DrawOp)
      reads this
      ensures op.FillCircle? && op.r == INDICATOR_RADIUS
      ensures op.x == width - 26 && op.y == height - 26
      ensures op.color == if armed then palette[VIOLET] else background
    {
      FillCircle(width - INDICATOR_RADIUS - INDICATOR_MARGIN, height - INDICATOR_RADIUS - INDICATOR_MARGIN,
                 INDICATOR_RADIUS, if armed then palette[VIOLET] else background)
    }

    /** The calls of a repaint in `color`: clear, text colour, the text, then the indicator. */
    function RepaintOps(color: int, text: string, armed: bool): seq<DrawOp>
      reads this
    {
      [FillScreen(color), SetTextColor(palette[WHITE], color)] + TextOps(text) + [IndicatorOp(armed, color)]
    }

    /**
     * A repaint clears the screen exactly once, as its first call, and ends
     * with the indicator in the new background colour (or violet).
     */
    lemma RepaintFillsOnce(color: int, text: string, armed: bool)
      ensures var ops := RepaintOps(color, text, armed);
              Fills(ops) == 1 && ops[0] == FillScreen(color)
              && ops[|ops| - 1] == IndicatorOp(armed, color)
              && ops[2..|ops| - 1] == TextOps(text)
    {
      var ops := RepaintOps(color, text, armed);
      TextDoesNotFill(text);
      FillsAppend([FillScreen(color), SetTextColor(palette[WHITE], color)], TextOps(text));
      FillsAppend([FillScreen(color), SetTextColor(palette[WHITE], color)] + TextOps(text), [IndicatorOp(armed, color)]);
      assert Fills([FillScreen(color), SetTextColor(palette[WHITE], color)]) == 1;
      assert Fills([IndicatorOp(armed, color)]) == 0;
    }

    /** `setLCDText`: one cursor move to the top left, then one write per segment. */
    method SetLCDText(message: string)
      requires NoNul(message)
      modifies this`trace
      ensures trace == old(trace) + TextOps(message)
    {
      var cx := TEXT_X;
      var cy := TEXT_Y;
      var lineHeight := LINE_HEIGHT;
      trace := trace + [SetCursor(cx, cy)];
      var lineStart := 0;
      while lineStart < |message|
        invariant 0 <= lineStart <= |message|
        invariant trace + LineOps(message, lineStart, cy) == old(trace) + TextOps(message)
        decreases |message| - lineStart
      {
        var lineEnd := FindNewline(message, lineStart);
        if lineEnd.Some? {
          ghost var before := trace;
          ghost var seg := message[lineStart..lineEnd.value];
          LineOpsSome(message, lineStart, cy, lineEnd.value);
          trace := trace + [Write(message[lineStart..lineEnd.value])];
          cy := cy + lineHeight;
          trace := trace + [SetCursor(TEXT_X, cy)];
          lineStart := lineEnd.value + 1;
          SeqAppendPair(before, Write(seg), SetCursor(TEXT_X, cy), LineOps(message, lineStart, cy));
        } else {
          LineOpsNone(message, lineStart, cy);
          trace := trace + [Write(message[lineStart..])];
          break;
        }
      }
    }

    method DrawRollCodeIndicator()
      modifies this`trace
      ensures trace == old(trace) + [IndicatorOp(rollCodeEnabled, lastColor)]
    {
      var screenWidth := width;
      var screenHeight := height;
      var radius := INDICATOR_RADIUS;
      var cx := screenWidth - radius - INDICATOR_MARGIN;
      var cy := screenHeight - radius - INDICATOR_MARGIN;
      if rollCodeEnabled {
        trace := trace + [FillCircle(cx, cy, radius, palette[VIOLET])];
      } else {
        trace := trace + [FillCircle(cx, cy, radius, lastColor)];
      }
    }

    /**
     * `setBacklightColor`: a colour other than the cached one repaints the
     * screen with the current text and indicator; the cached colour draws
     * nothing. Either way every LED is set to the colour's LED colour.
     */
    method SetBacklightColor(color: int)
      requires Valid()
      modifies this`lastColor, this`trace, leds
      ensures Valid() && lastColor == color
      ensures old(lastColor) == color ==> trace == old(trace)
      ensures old(lastColor) != color ==> trace == old(trace) + RepaintOps(color, lcdText, rollCodeEnabled)
      ensures forall i :: 0 <= i < leds.Length ==> leds[i] == LedColor(palette, color)
    {
      if color != lastColor {
        trace := trace + [FillScreen(color)];
        trace := trace + [SetTextColor(palette[WHITE], color)];
        lastColor := color;
        SetLCDText(lcdText);
        DrawRollCodeIndicator();
      }

      var ledColor := Black;
      if color == palette[OFF] { ledColor := Black; }
      else if color == palette[RED] { ledColor := Red; }
      else if color == palette[YELLOW] { ledColor := Yellow; }
      else if color == palette[GREEN] { ledColor := Green; }
      else if color == palette[TEAL] { ledColor := Cyan; }
      else if color == palette[BLUE] { ledColor := Blue; }
      else if color == palette[VIOLET] { ledColor := Purple; }
      else if color == palette[WHITE] { ledColor := White; }

      for i := 0 to NUM_LEDS
        modifies leds
        invariant forall j :: 0 <= j < i ==> leds[j] == ledColor
      {
        leds[i] := ledColor;
      }
    }

    /**
     * `showStatus`: blue for stances up to 2, red otherwise. The colour is
     * set (repainting the previous text) before the new text is formatted
     * and written over it.
     */
    method ShowStatus(stance: I32, stanceName: string)
      requires Valid() && NoNul(stanceName)
      modifies this`lastColor, this`lcdText, this`trace, leds
      ensures Valid()
      ensures lastColor == if stance <= 2 then palette[BLUE] else palette[RED]
      ensures lcdText == Truncate(StatusText(stance <= 2, stance, stanceName), TEXT_CAPACITY)
      ensures trace == old(trace)
                       + (if old(lastColor) != lastColor then RepaintOps(lastColor, old(lcdText), rollCodeEnabled) else [])
                       + TextOps(lcdText)
      ensures forall i :: 0 <= i < leds.Length ==> leds[i] == LedColor(palette, lastColor)
    {
      if stance <= 2 {
        SetBacklightColor(palette[BLUE]);
        lcdText := Truncate(StatusText(true, stance, stanceName), TEXT_CAPACITY);
      } else {
        SetBacklightColor(palette[RED]);
        lcdText := Truncate(StatusText(false, stance, stanceName), TEXT_CAPACITY);
      }
      StatusTextHasNoNul(stance <= 2, stance, stanceName);
      SetLCDText(lcdText);
    }

    /** `showTransition`: green, with the target's line. */
    method ShowTransition(stanceTarget: int)
      requires Valid()
      modifies this`lastColor, this`lcdText, this`trace, leds
      ensures Valid() && lastColor == palette[GREEN]
      ensures lcdText == TransitionText(stanceTarget)
      ensures trace == old(trace)
                       + (if old(lastColor) != lastColor then RepaintOps(lastColor, old(lcdText), rollCodeEnabled) else [])
                       + TextOps(lcdText)
      ensures forall i :: 0 <= i < leds.Length ==> leds[i] == LedColor(palette, palette[GREEN])
    {
      SetBacklightColor(palette[GREEN]);
      lcdText := TransitionText(stanceTarget);
      TransitionTextIsCString(stanceTarget);
      SetLCDText(lcdText);
    }

    /** `showRollCodeEnabled`: records the flag and redraws only the indicator. */
    method ShowRollCodeEnabled(enabled: bool)
      modifies this`rollCodeEnabled, this`trace
      ensures rollCodeEnabled == enabled
      ensures trace == old(trace) + [IndicatorOp(enabled, lastColor)]
    {
      rollCodeEnabled := enabled;
      DrawRollCodeIndicator();
    }
  }

  /** The formatted status text holds no terminator, so its truncation is a C string. */
  lemma StatusTextHasNoNul(ok: bool, stance: I32, stanceName: string)
    requires NoNul(stanceName)
    ensures NoNul(Truncate(StatusText(ok, stance, stanceName), TEXT_CAPACITY))
  {
    var m := StatusText(ok, stance, stanceName);
    var d := Dec(stance);
    assert m == StatusHeader(ok) + "\n" + d + ": " + stanceName;
    assert forall i :: 0 <= i < |d| ==> d[i] != '\0';
    assert NoNul(m);
    var r := Truncate(m, TEXT_CAPACITY);
    assert forall i :: 0 <= i < |r| ==> r[i] == m[i];
  }

  /** Setting the same colour twice repaints at most once: the second call draws nothing. */
  method SetColorTwice(d: DisplayManager, color: int)
    requires d.Valid()
    modifies d`lastColor, d`trace, d.leds
    ensures d.Valid() && d.lastColor == color
    ensures d.trace == old(d.trace) + (if old(d.lastColor) != color then d.RepaintOps(color, d.lcdText, d.rollCodeEnabled) else [])
  {
    d.SetBacklightColor(color);
    ghost var afterFirst := d.trace;
    d.SetBacklightColor(color);
    assert d.trace == afterFirst;
  }

  /**
   * A new display caches no colour, so the first colour it is given (any
   * `int` but -1) repaints the empty text and the unarmed indicator.
   */
  method FirstColorRepaints(p: Palette, width: int, height: int, color: int) returns (d: DisplayManager)
    requires ValidPalette(p) && color != -1
    ensures d.Valid() && d.lastColor == color
    ensures d.trace == d.RepaintOps(color, "", false)
  {
    d := new DisplayManager(p, width, height);
    d.SetBacklightColor(color);
  }

  /** Two different named colours other than black give two different LED colours. */
  lemma LedColorsDistinct(p: Palette, i: int, j: int)
    requires ValidPalette(p)
    requires 1 <= i < 8 && 1 <= j < 8 && i != j
    ensures LedColor(p, p[i]) != LedColor(p, p[j])
  {
  }
}
