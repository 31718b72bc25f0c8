/** The sequence builders of `libs::standard::ansi`: the terminator tables of
    `Enclose`, the `get*` builders of `CSISequencer`, `SGRSequencer`,
    `FsSequencer` and `FpSequencer`, and the `ANSISequencer` facade that
    chooses between them.

    Every CSI builder is specified by what the scanner of `AnsiGrammar` reads
    back from its output (the parameters in order and the final byte) and by
    `IsValid`; the SGR colour builders in their colon form are specified as
    the colon transliteration of a semicolon sequence. */
module Ansi {
  import opened Optional
  import opened Numerals
  import Types
  import opened AnsiGrammar

  // ---------------------------------------------------------------------
  // Terminator tables: `Enclose`

  /** `Enclose::CSIEndChar`: the control functions introduced by "ESC[". */
  datatype CsiFunction =
    | CUU  // Cursor Up
    | CUD  // Cursor Down
    | CUF  // Cursor Forward
    | CUB  // Cursor Backward
    | CNL  // Cursor Next Line
    | CPL  // Cursor Previous Line
    | CHA  // Cursor Horizontal Absolute
    | CUP  // Cursor Position
    | EL   // Erase in Line
    | ED   // Erase in Display
    | SU   // Scroll Up
    | SD   // Scroll Down
    | HVP  // Horizontal Vertical Position
    | SGR  // Select Graphic Rendition
    | SCP  // Save Current Cursor Position
    | RCP  // Restore Saved Cursor Position

  /** `Enclose::FsEndChar`: the independent control functions. */
  datatype FsFunction = RIS  // Reset to Initial State

  /** `Enclose::FpEndChar`: the private-use control functions. */
  datatype FpFunction =
    | DECSC  // DEC Save Cursor
    | DECRC  // DEC Restore Cursor

  /** `Enclose::ToChar` on a CSI function: its final byte, always a letter. */
  function CsiFinal(f: CsiFunction): (c: char)
    ensures IsLetter(c)
  {
    match f
    case CUU => 'A'
    case CUD => 'B'
    case CUF => 'C'
    case CUB => 'D'
    case CNL => 'E'
    case CPL => 'F'
    case CHA => 'G'
    case CUP => 'H'
    case EL => 'K'
    case ED => 'J'
    case SU => 'S'
    case SD => 'T'
    case HVP => 'f'
    case SGR => 'm'
    case SCP => 's'
    case RCP => 'u'
  }

  /** The CSI function a final byte ends, if it ends one. */
  function CsiFunctionOf(c: char): (r: Option<CsiFunction>)
    ensures r.Some? ==> CsiFinal(r.value) == c
  {
    if c == 'A' then Some(CUU)
    else if c == 'B' then Some(CUD)
    else if c == 'C' then Some(CUF)
    else if c == 'D' then Some(CUB)
    else if c == 'E' then Some(CNL)
    else if c == 'F' then Some(CPL)
    else if c == 'G' then Some(CHA)
    else if c == 'H' then Some(CUP)
    else if c == 'K' then Some(EL)
    else if c == 'J' then Some(ED)
    else if c == 'S' then Some(SU)
    else if c == 'T' then Some(SD)
    else if c == 'f' then Some(HVP)
    else if c == 'm' then Some(SGR)
    else if c == 's' then Some(SCP)
    else if c == 'u' then Some(RCP)
    else None
  }

  /** The final byte identifies the CSI function: reading it back gives the
      function, so the sixteen terminators are pairwise distinct. */
  lemma CsiFinalInverse(f: CsiFunction, g: CsiFunction)
    ensures CsiFunctionOf(CsiFinal(f)) == Some(f)
    ensures CsiFinal(f) == CsiFinal(g) ==> f == g
  {
  }

  /** `Enclose::ToChar` on an Fs function. */
  function FsFinal(f: FsFunction): char
  {
    match f
    case RIS => 'c'
  }

  /** `Enclose::ToChar` on an Fp function: a digit. */
  function FpFinal(f: FpFunction): (c: char)
    ensures IsDigit(c)
  {
    match f
    case DECSC => '7'
    case DECRC => '8'
  }

  /** The three families share no terminator. */
  lemma FamiliesDisjoint(f: CsiFunction, g: FsFunction, h: FpFunction)
    ensures CsiFinal(f) != FsFinal(g) && CsiFinal(f) != FpFinal(h) && FsFinal(g) != FpFinal(h)
  {
  }

  // ---------------------------------------------------------------------
  // `CSISequencer`: the CSI builders

  /** "ESC[" + decimal(n) + the final byte of `f`: every one-count builder. */
  function CountSequence(f: CsiFunction, n: nat): (r: string)
    ensures r == Render([n], CsiFinal(f))
    ensures Scan(r) == Some(ControlSequence([Value(n)], CsiFinal(f))) && IsValid(r)
  {
    RenderOne(n, CsiFinal(f));
    RenderScans([n], CsiFinal(f));
    assert Values([n]) == [Value(n)];
    CSI + Decimal(n) + [CsiFinal(f)]
  }

  /** "ESC[" + decimal(m) + ';' + decimal(n) + the final byte of `f`. */
  function PairSequence(f: CsiFunction, m: nat, n: nat): (r: string)
    ensures r == Render([m, n], CsiFinal(f))
    ensures Scan(r) == Some(ControlSequence([Value(m), Value(n)], CsiFinal(f))) && IsValid(r)
  {
    RenderTwo(m, n, CsiFinal(f));
    RenderScans([m, n], CsiFinal(f));
    assert Values([m, n]) == [Value(m), Value(n)];
    CSI + Decimal(m) + ";" + Decimal(n) + [CsiFinal(f)]
  }

  /** "ESC[" + the final byte of `f`, with no parameter. */
  function BareSequence(f: CsiFunction): (r: string)
    ensures r == Render([], CsiFinal(f)) && |r| == 3
    ensures Scan(r) == Some(ControlSequence([], CsiFinal(f))) && IsValid(r)
  {
    RenderScans([], CsiFinal(f));
    assert ParamFields(Values([])) == [];
    CSI + [CsiFinal(f)]
  }

  /** `getCUU`: Cursor Up by `cells`. */
  function CursorUp(cells: nat := 1): (r: string)
    ensures Scan(r) == Some(ControlSequence([Value(cells)], 'A')) && IsValid(r)
    ensures r == Render([cells], 'A')
  {
    CountSequence(CUU, cells)
  }

  /** `getCUD`: Cursor Down by `cells`. */
  function CursorDown(cells: nat := 1): (r: string)
    ensures Scan(r) == Some(ControlSequence([Value(cells)], 'B')) && IsValid(r)
    ensures r == Render([cells], 'B')
  {
    CountSequence(CUD, cells)
  }

  /** `getCUF`: Cursor Forward by `cells`. */
  function CursorForward(cells: nat := 1): (r: string)
    ensures Scan(r) == Some(ControlSequence([Value(cells)], 'C')) && IsValid(r)
    ensures r == Render([cells], 'C')
  {
    CountSequence(CUF, cells)
  }

  /** `getCUB`: Cursor Back by `cells`. */
  function CursorBack(cells: nat := 1): (r: string)
    ensures Scan(r) == Some(ControlSequence([Value(cells)], 'D')) && IsValid(r)
    ensures r == Render([cells], 'D')
  {
    CountSequence(CUB, cells)
  }

  /** `getCNL`: to the start of the line `cells` lines down. */
  function CursorNextLine(cells: nat := 1): (r: string)
    ensures Scan(r) == Some(ControlSequence([Value(cells)], 'E')) && IsValid(r)
    ensures r == Render([cells], 'E')
  {
    CountSequence(CNL, cells)
  }

  /** `getCPL`: to the start of the line `cells` lines up. */
  function CursorPreviousLine(cells: nat := 1): (r: string)
    ensures Scan(r) == Some(ControlSequence([Value(cells)], 'F')) && IsValid(r)
    ensures r == Render([cells], 'F')
  {
    CountSequence(CPL, cells)
  }

  /** `getCHA`: to column `n`. */
  function CursorHorizontalAbsolute(n: nat := 1): (r: string)
    ensures Scan(r) == Some(ControlSequence([Value(n)], 'G')) && IsValid(r)
    ensures r == Render([n], 'G')
  {
    CountSequence(CHA, n)
  }

  /** `getCUP`: to (`row`, `column`), row first. */
  function CursorPosition(row: nat := 1, column: nat := 1): (r: string)
    ensures Scan(r) == Some(ControlSequence([Value(row), Value(column)], 'H')) && IsValid(r)
    ensures r == Render([row, column], 'H')
  {
    PairSequence(CUP, row, column)
  }

  /** `getHVP`: to (`row`, `column`), row first, as a format effector. */
  function HorizontalVerticalPosition(row: nat := 1, column: nat := 1): (r: string)
    ensures Scan(r) == Some(ControlSequence([Value(row), Value(column)], 'f')) && IsValid(r)
    ensures r == Render([row, column], 'f')
  {
    PairSequence(HVP, row, column)
  }

  /** `getSU`: scroll the page up by `lines`. */
  function ScrollUp(lines: nat := 1): (r: string)
    ensures Scan(r) == Some(ControlSequence([Value(lines)], 'S')) && IsValid(r)
    ensures r == Render([lines], 'S')
  {
    CountSequence(SU, lines)
  }

  /** `getSD`: scroll the page down by `lines`. */
  function ScrollDown(lines: nat := 1): (r: string)
    ensures Scan(r) == Some(ControlSequence([Value(lines)], 'T')) && IsValid(r)
    ensures r == Render([lines], 'T')
  {
    CountSequence(SD, lines)
  }

  /** `ParamType::EDType`. */
  datatype DisplayErase = ToEndOfScreen | ToBeginningOfTheScreen | EntireScreen | EntireScreenWithBuffer

  /** `ParamType::ELType`. */
  datatype LineErase = ToEndOfLine | ToBeginningOfLine | EntireLine

  /** The numeric value of an `EDType`. */
  function DisplayEraseCode(mode: DisplayErase): (n: nat)
    ensures n < 4
  {
    match mode
    case ToEndOfScreen => 0
    case ToBeginningOfTheScreen => 1
    case EntireScreen => 2
    case EntireScreenWithBuffer => 3
  }

  /** The numeric value of an `ELType`. */
  function LineEraseCode(mode: LineErase): (n: nat)
    ensures n < 3
  {
    match mode
    case ToEndOfLine => 0
    case ToBeginningOfLine => 1
    case EntireLine => 2
  }

  /** `getED`: one mode digit and 'J'; the mode defaults to `ToEndOfScreen`. */
  function EraseInDisplay(mode: DisplayErase := ToEndOfScreen): (r: string)
    ensures Scan(r) == Some(ControlSequence([Value(DisplayEraseCode(mode))], 'J')) && IsValid(r)
    ensures |r| == 4 && r[2] == DigitChar(DisplayEraseCode(mode))
    ensures r == Render([DisplayEraseCode(mode)], 'J')
  {
    CountSequence(ED, DisplayEraseCode(mode))
  }

  /** `getEL`: one mode digit and 'K'; the mode defaults to `ToEndOfLine`. */
  function EraseInLine(mode: LineErase := ToEndOfLine): (r: string)
    ensures Scan(r) == Some(ControlSequence([Value(LineEraseCode(mode))], 'K')) && IsValid(r)
    ensures |r| == 4 && r[2] == DigitChar(LineEraseCode(mode))
    ensures r == Render([LineEraseCode(mode)], 'K')
  {
    CountSequence(EL, LineEraseCode(mode))
  }

  /** Distinct erase modes give distinct sequences. */
  lemma EraseModesDistinct(d1: DisplayErase, d2: DisplayErase, l1: LineErase, l2: LineErase)
    ensures EraseInDisplay(d1) == EraseInDisplay(d2) ==> d1 == d2
    ensures EraseInLine(l1) == EraseInLine(l2) ==> l1 == l2
  {
    if EraseInDisplay(d1) == EraseInDisplay(d2) {
      assert DigitValue(DigitChar(DisplayEraseCode(d1))) == DigitValue(DigitChar(DisplayEraseCode(d2)));
    }
    if EraseInLine(l1) == EraseInLine(l2) {
      assert DigitValue(DigitChar(LineEraseCode(l1))) == DigitValue(DigitChar(LineEraseCode(l2)));
    }
  }

  /** `getSCP`: exactly "ESC[s". */
  function SaveCursorPosition(): (r: string)
    ensures Scan(r) == Some(ControlSequence([], 's')) && IsValid(r) && |r| == 3
  {
    BareSequence(SCP)
  }

  /** `getRCP`: exactly "ESC[u". */
  function RestoreCursorPosition(): (r: string)
    ensures Scan(r) == Some(ControlSequence([], 'u')) && IsValid(r) && |r| == 3
  {
    BareSequence(RCP)
  }

  /** The examples the builders' comments give. */
  lemma CursorUpExample()
    ensures CursorUp(3) == "\U{1B}[3A"
  {
    assert Decimal(3) == "3";
    RenderOne(3, 'A');
  }

  lemma EraseDefaultsExample()
    ensures EraseInDisplay() == "\U{1B}[0J" && EraseInLine() == "\U{1B}[0K"
  {
    assert Decimal(0) == "0";
    RenderOne(0, 'J');
    RenderOne(0, 'K');
  }

  lemma CursorMemoryExample()
    ensures SaveCursorPosition() == "\U{1B}[s" && RestoreCursorPosition() == "\U{1B}[u"
  {
  }

  // ---------------------------------------------------------------------
  // `SGRSequencer`: Select Graphic Rendition

  /** `DisplayAttribute::SGRDisplayAttribute`. */
  datatype DisplayAttribute =
    | Reset | Bold | Faint | Italic | NormalIntensity | Underline | DoublyUnderlined
    | NotUnderlined | Overlined | NotOverlined | Strikeout | NotStrikeout | Blink
    | NotBlinking | Invert | NotInverted | Conceal | Reveal

  /** The numeric value of a display attribute; 38 and 48 are left to the
      colour builders. */
  function AttributeCode(a: DisplayAttribute): (n: nat)
    ensures n < 56 && n != 38 && n != 48
  {
    match a
    case Reset => 0
    case Bold => 1
    case Faint => 2
    case Italic => 3
    case NormalIntensity => 22
    case Underline => 4
    case DoublyUnderlined => 21
    case NotUnderlined => 24
    case Overlined => 53
    case NotOverlined => 55
    case Strikeout => 9
    case NotStrikeout => 29
    case Blink => 5
    case NotBlinking => 25
    case Invert => 7
    case NotInverted => 27
    case Conceal => 8
    case Reveal => 28
  }

  /** The eighteen attributes have eighteen distinct codes. */
  lemma AttributeCodeInjective(a: DisplayAttribute, b: DisplayAttribute)
    requires AttributeCode(a) == AttributeCode(b)
    ensures a == b
  {
  }

  /** The names shared by `SGRNamedColor::Foreground` and `SGRNamedColor::Background`. */
  datatype SgrNamedColor =
    | Black | Red | Green | Yellow | Blue | Magenta | Cyan | White | Default
    | Gray | BrightRed | BrightGreen | BrightYellow | BrightBlue | BrightMagenta
    | BrightCyan | BrightWhite

  /** `SGRNamedColor::Foreground`. */
  function ForegroundCode(c: SgrNamedColor): (n: nat)
    ensures 30 <= n <= 39 || 90 <= n <= 97
  {
    match c
    case Black => 30
    case Red => 31
    case Green => 32
    case Yellow => 33
    case Blue => 34
    case Magenta => 35
    case Cyan => 36
    case White => 37
    case Default => 39
    case Gray => 90
    case BrightRed => 91
    case BrightGreen => 92
    case BrightYellow => 93
    case BrightBlue => 94
    case BrightMagenta => 95
    case BrightCyan => 96
    case BrightWhite => 97
  }

  /** `SGRNamedColor::Background`. */
  function BackgroundCode(c: SgrNamedColor): (n: nat)
    ensures 40 <= n <= 49 || 100 <= n <= 107
  {
    match c
    case Black => 40
    case Red => 41
    case Green => 42
    case Yellow => 43
    case Blue => 44
    case Magenta => 45
    case Cyan => 46
    case White => 47
    case Default => 49
    case Gray => 100
    case BrightRed => 101
    case BrightGreen => 102
    case BrightYellow => 103
    case BrightBlue => 104
    case BrightMagenta => 105
    case BrightCyan => 106
    case BrightWhite => 107
  }

  /** Each background code is its foreground code plus ten, and no code names
      two colours or both planes. */
  lemma NamedColorCodes(c: SgrNamedColor, d: SgrNamedColor)
    ensures BackgroundCode(c) == ForegroundCode(c) + 10
    ensures ForegroundCode(c) == ForegroundCode(d) ==> c == d
    ensures ForegroundCode(c) != BackgroundCode(d)
  {
  }

  /** `getDisplayAttribute`: "ESC[" + the attribute's code + 'm'. */
  function DisplayAttributeSequence(attribute: DisplayAttribute): (r: string)
    ensures r == Render([AttributeCode(attribute)], 'm')
    ensures Scan(r) == Some(ControlSequence([Value(AttributeCode(attribute))], 'm')) && IsValid(r)
  {
    CountSequence(SGR, AttributeCode(attribute))
  }

  /** `getColor(fg, bg)`: the 4-bit colour pair, foreground first. */
  function NamedColors(fg: SgrNamedColor, bg: SgrNamedColor): (r: string)
    ensures r == Render([ForegroundCode(fg), BackgroundCode(bg)], 'm')
    ensures Scan(r) == Some(ControlSequence([Value(ForegroundCode(fg)), Value(BackgroundCode(bg))], 'm'))
    ensures IsValid(r)
  {
    PairSequence(SGR, ForegroundCode(fg), BackgroundCode(bg))
  }

  /** `getColorsReset`: "ESC[39;49m", the pair of default colours. */
  function ColorsReset(): (r: string)
    ensures r == NamedColors(SgrNamedColor.Default, SgrNamedColor.Default)
  {
    ColorsResetText();
    CSI + "39;49" + "m"
  }

  lemma ColorsResetText()
    ensures CSI + "39;49" + "m" == NamedColors(SgrNamedColor.Default, SgrNamedColor.Default)
  {
    assert ForegroundCode(SgrNamedColor.Default) == 39 && BackgroundCode(SgrNamedColor.Default) == 49;
    assert Decimal(39) == "39" && Decimal(49) == "49";
    assert Decimal(39) + ";" + Decimal(49) == "39;49";
  }

  /** `SGRSequencer::ColorType`. */
  datatype ColorPlane = Foreground | Background

  /** The SGR code that selects a colour for a plane: 38 for the foreground,
      48 for the background, as `getGroundColor` chooses it. */
  function PlaneCode(plane: ColorPlane): (n: nat)
    ensures n == 38 || n == 48
  {
    if plane == Foreground then 38 else 48
  }

  /** `FG` or `BG`, the two-digit text of a plane code. */
  function CodeText(isForeground: bool): (t: string)
    ensures t == Decimal(if isForeground then 38 else 48)
  {
    assert Decimal(38) == "38" && Decimal(48) == "48";
    if isForeground then "38" else "48"
  }

  /** Every ';' of `s` replaced by ':', the separator of SGR colour
      sub-parameters. */
  function WithColons(s: string): string
  {
    seq(|s|, i requires 0 <= i < |s| => if s[i] == ';' then ':' else s[i])
  }

  /** Fields joined by colons. */
  function JoinColons(fs: seq<string>): string
  {
    if |fs| == 0 then ""
    else if |fs| == 1 then fs[0]
    else fs[0] + ":" + JoinColons(fs[1..])
  }

  lemma WithColonsConcat(a: string, b: string)
    ensures WithColons(a + b) == WithColons(a) + WithColons(b)
  {
    assert forall i :: 0 <= i < |a| ==> (a + b)[i] == a[i];
    assert forall i :: |a| <= i < |a| + |b| ==> (a + b)[i] == b[i - |a|];
  }

  lemma WithColonsKeeps(a: string)
    requires ';' !in a
    ensures WithColons(a) == a
  {
  }

  /** Fields free of semicolons: their semicolon join, transliterated, is
      their colon join. */
  lemma {:induction false} WithColonsOfJoin(fs: seq<string>)
    requires forall k :: 0 <= k < |fs| ==> ';' !in fs[k]
    ensures WithColons(JoinFields(fs)) == JoinColons(fs)
  {
    if |fs| == 0 {
    } else if |fs| == 1 {
      WithColonsKeeps(fs[0]);
    } else {
      WithColonsOfJoin(fs[1..]);
      WithColonsConcat(fs[0] + ";", JoinFields(fs[1..]));
      WithColonsConcat(fs[0], ";");
      WithColonsKeeps(fs[0]);
      assert WithColons(";") == ":";
    }
  }

  /** The colon form of a rendering: "ESC[" + the fields joined by ':' + the final byte. */
  lemma WithColonsOfRender(ps: seq<Param>, final: char)
    requires final != ';'
    ensures WithColons(RenderParams(ps, final)) == CSI + JoinColons(ParamFields(ps)) + [final]
  {
    WithColonsConcat(CSI + JoinFields(ParamFields(ps)), [final]);
    WithColonsConcat(CSI, JoinFields(ParamFields(ps)));
    WithColonsOfJoin(ParamFields(ps));
    WithColonsKeeps(CSI);
    WithColonsKeeps([final]);
  }

  /** The colon form of a sequence with at least one separator is invalid:
      ':' is outside the language `IsValid` accepts. */
  lemma ColonFormInvalid(s: string, i: nat)
    requires Framed(s) && 2 <= i < |s| - 1 && s[i] == ';'
    ensures !IsValid(WithColons(s))
  {
    var t := WithColons(s);
    assert Framed(t);
    assert Body(t)[i - 2] == t[i] == ':';
    GateNeverChangesVerdict(t);
  }

  /** The colon form of a rendered list of two or more parameters is invalid. */
  lemma ColonRenderingInvalid(ps: seq<Param>, final: char)
    requires |ps| >= 2 && IsLetter(final)
    ensures !IsValid(WithColons(RenderParams(ps, final)))
  {
    var fs := ParamFields(ps);
    var s := RenderParams(ps, final);
    assert JoinFields(fs) == fs[0] + ";" + JoinFields(fs[1..]);
    assert s == CSI + fs[0] + ";" + JoinFields(fs[1..]) + [final];
    ColonFormInvalid(s, 2 + |fs[0]|);
  }

  /** The parameters of a palette sequence: the plane code, 5, the index. */
  function PaletteParams(code: nat, color: nat): (ps: seq<Param>)
    ensures ps == Values([code, 5, color])
  {
    [Value(code), Value(5), Value(color)]
  }

  /** The field texts of a palette sequence. */
  lemma PaletteFields(code: nat, color: nat)
    ensures ParamFields(PaletteParams(code, color)) == [Decimal(code), "5", Decimal(color)]
  {
    assert Decimal(5) == "5";
  }

  /** The two texts of a palette sequence. */
  lemma PaletteShape(code: nat, color: nat)
    ensures RenderParams(PaletteParams(code, color), 'm') == CSI + Decimal(code) + ";5;" + Decimal(color) + "m"
    ensures WithColons(RenderParams(PaletteParams(code, color), 'm')) == CSI + Decimal(code) + ":5:" + Decimal(color) + "m"
  {
    PaletteFields(code, color);
    PaletteJoins(Decimal(code), Decimal(color));
    WithColonsOfRender(PaletteParams(code, color), 'm');
  }

  lemma PaletteJoins(d: string, c: string)
    ensures JoinFields([d, "5", c]) == d + ";5;" + c
    ensures JoinColons([d, "5", c]) == d + ":5:" + c
  {
    var fs := [d, "5", c];
    assert fs[1..] == ["5", c] && fs[1..][1..] == [c];
    assert JoinFields(fs[1..]) == "5" + ";" + c;
    assert JoinFields(fs) == d + ";" + ("5" + ";" + c);
    assert JoinColons(fs[1..]) == "5" + ":" + c;
    assert JoinColons(fs) == d + ":" + ("5" + ":" + c);
  }

  /** The plane that is not `plane`. */
  function OtherPlane(plane: ColorPlane): ColorPlane
  {
    if plane == Foreground then Background else Foreground
  }

  /** `getColor(color, type, useColons)` as written: the plane code is
      chosen by `static_cast<bool>(type)`, which is false for `Foreground`
      (the first enumerator), so `Foreground` gets "48" and `Background` "38". */
  function PaletteColorAsWritten(color: Types.Byte, plane: ColorPlane, useColons: bool := true): (r: string)
    ensures r == PaletteColor(color, OtherPlane(plane), useColons)
  {
    var code := CodeText(plane == Background);
    if useColons then CSI + code + ":5:" + Decimal(color) + "m"
    else CSI + code + ";5;" + Decimal(color) + "m"
  }

  /** The palette sequence the plane names (8-bit colour, 256 colours): the
      plane code, 5, and the colour index; as ':'-separated
      sub-parameters or as ';'-separated parameters. */
  function PaletteColor(color: Types.Byte, plane: ColorPlane, useColons: bool := true): (r: string)
    ensures !useColons ==> r == Render([PlaneCode(plane), 5, color], 'm')
    ensures !useColons ==>
      Scan(r) == Some(ControlSequence([Value(PlaneCode(plane)), Value(5), Value(color)], 'm')) && IsValid(r)
    ensures useColons ==> r == WithColons(RenderParams(PaletteParams(PlaneCode(plane), color), 'm')) && !IsValid(r)
  {
    var code := CodeText(plane == Foreground);
    PaletteShape(PlaneCode(plane), color);
    RenderParamsScans(PaletteParams(PlaneCode(plane), color), 'm');
    ColonRenderingInvalid(PaletteParams(PlaneCode(plane), color), 'm');
    if useColons then CSI + code + ":5:" + Decimal(color) + "m"
    else CSI + code + ";5;" + Decimal(color) + "m"
  }

  /** The palette builder as written selects the opposite plane: a
      foreground request produces a sequence whose first parameter is 48,
      the background code, and so differs from the corrected one. */
  lemma PaletteAsWrittenSwapsPlanes(color: Types.Byte)
    ensures Scan(PaletteColorAsWritten(color, Foreground, false)).value.params[0] == Value(48)
    ensures Scan(PaletteColorAsWritten(color, Background, false)).value.params[0] == Value(38)
    ensures PaletteColorAsWritten(color, Foreground, false) != PaletteColor(color, Foreground, false)
  {
    var a := PaletteColorAsWritten(color, Foreground, false);
    var b := PaletteColor(color, Foreground, false);
    assert Scan(a).value.params[0] != Scan(b).value.params[0];
  }

  /** The parameters of the colon form of a 24-bit colour: the plane code,
      2, an empty colour-space slot, then red, green and blue. */
  function RgbParams(color: Types.RGBColor, code: nat): (ps: seq<Param>)
    ensures |ps| == 6 && ExplicitEnds(ps)
  {
    [Value(code), Value(2), Param.Default, Value(color.red), Value(color.green), Value(color.blue)]
  }

  /** The field texts of both forms of a 24-bit colour. */
  lemma RgbFields(code: nat, color: Types.RGBColor)
    ensures ParamFields(Values([code, 2, color.red, color.green, color.blue]))
         == [Decimal(code), "2", Decimal(color.red), Decimal(color.green), Decimal(color.blue)]
    ensures ParamFields(RgbParams(color, code))
         == [Decimal(code), "2", "", Decimal(color.red), Decimal(color.green), Decimal(color.blue)]
  {
    assert Decimal(2) == "2";
  }

  lemma JoinFive(a: string, b: string, c: string, d: string, e: string)
    ensures JoinFields([a, b, c, d, e]) == a + ";" + b + ";" + c + ";" + d + ";" + e
  {
    var f4, f3, f2 := [d, e], [c, d, e], [b, c, d, e];
    assert f4[1..] == [e] && f3[1..] == f4 && f2[1..] == f3 && [a, b, c, d, e][1..] == f2;
    assert JoinFields(f4) == d + ";" + e;
    assert JoinFields(f3) == c + ";" + (d + ";" + e);
    assert JoinFields(f2) == b + ";" + (c + ";" + (d + ";" + e));
    assert JoinFields([a, b, c, d, e]) == a + ";" + (b + ";" + (c + ";" + (d + ";" + e)));
  }

  lemma JoinColonsSix(a: string, b: string, c: string, d: string, e: string, f: string)
    ensures JoinColons([a, b, c, d, e, f]) == a + ":" + b + ":" + c + ":" + d + ":" + e + ":" + f
  {
    var f5, f4, f3, f2 := [e, f], [d, e, f], [c, d, e, f], [b, c, d, e, f];
    assert f5[1..] == [f] && f4[1..] == f5 && f3[1..] == f4 && f2[1..] == f3 && [a, b, c, d, e, f][1..] == f2;
    assert JoinColons(f5) == e + ":" + f;
    assert JoinColons(f4) == d + ":" + (e + ":" + f);
    assert JoinColons(f3) == c + ":" + (d + ":" + (e + ":" + f));
    assert JoinColons(f2) == b + ":" + (c + ":" + (d + ":" + (e + ":" + f)));
    assert JoinColons([a, b, c, d, e, f]) == a + ":" + (b + ":" + (c + ":" + (d + ":" + (e + ":" + f))));
  }

  lemma FlattenSemicolons(c: string, d: string, r: string, g: string, b: string)
    ensures c + (d + ";" + "2" + ";" + r + ";" + g + ";" + b) + "m" == c + d + ";2;" + r + ";" + g + ";" + b + "m"
  {
    assert ";" + "2" + ";" == ";2;";
  }

  lemma FlattenColons(c: string, d: string, r: string, g: string, b: string)
    ensures c + (d + ":" + "2" + ":" + "" + ":" + r + ":" + g + ":" + b) + "m" == c + d + ":2::" + r + ":" + g + ":" + b + "m"
  {
    assert ":" + "2" + ":" + "" + ":" == ":2::";
  }

  /** The semicolon text of a 24-bit colour. */
  lemma RgbSemicolonShape(code: nat, color: Types.RGBColor)
    ensures Render([code, 2, color.red, color.green, color.blue], 'm')
         == CSI + Decimal(code) + ";2;" + Decimal(color.red) + ";" + Decimal(color.green) + ";" + Decimal(color.blue) + "m"
  {
    var r, g, b, d := Decimal(color.red), Decimal(color.green), Decimal(color.blue), Decimal(code);
    var j := JoinFields(ParamFields(Values([code, 2, color.red, color.green, color.blue])));
    assert j == d + ";" + "2" + ";" + r + ";" + g + ";" + b by {
      RgbFields(code, color);
      JoinFive(d, "2", r, g, b);
    }
    assert Render([code, 2, color.red, color.green, color.blue], 'm') == CSI + j + "m";
    FlattenSemicolons(CSI, d, r, g, b);
  }

  /** The colon text of a 24-bit colour. */
  lemma RgbColonShape(code: nat, color: Types.RGBColor)
    ensures WithColons(RenderParams(RgbParams(color, code), 'm'))
         == CSI + Decimal(code) + ":2::" + Decimal(color.red) + ":" + Decimal(color.green) + ":" + Decimal(color.blue) + "m"
  {
    var r, g, b, d := Decimal(color.red), Decimal(color.green), Decimal(color.blue), Decimal(code);
    var j := JoinColons(ParamFields(RgbParams(color, code)));
    assert j == d + ":" + "2" + ":" + "" + ":" + r + ":" + g + ":" + b by {
      RgbFields(code, color);
      JoinColonsSix(d, "2", "", r, g, b);
    }
    WithColonsOfRender(RgbParams(color, code), 'm');
    FlattenColons(CSI, d, r, g, b);
  }

  /** `getGroundColor`: the colon and semicolon forms of a 24-bit colour. */
  function GroundColor(color: Types.RGBColor, isForeground: bool): (forms: (string, string))
    ensures forms.1 == Render([if isForeground then 38 else 48, 2, color.red, color.green, color.blue], 'm')
    ensures forms.0 == WithColons(RenderParams(RgbParams(color, if isForeground then 38 else 48), 'm'))
  {
    var r := Decimal(color.red);
    var g := Decimal(color.green);
    var b := Decimal(color.blue);
    var code := CodeText(isForeground);
    RgbSemicolonShape(if isForeground then 38 else 48, color);
    RgbColonShape(if isForeground then 38 else 48, color);
    (CSI + code + ":2::" + r + ":" + g + ":" + b + "m", CSI + code + ";2;" + r + ";" + g + ";" + b + "m")
  }

  /** `getColor(RGBColor, type, useColons)`: 24-bit colour, the plane code
      38 for `Foreground` and 48 for `Background`. */
  function RgbColor(color: Types.RGBColor, plane: ColorPlane, useColons: bool := true): (r: string)
    ensures !useColons ==> r == Render([PlaneCode(plane), 2, color.red, color.green, color.blue], 'm')
    ensures !useColons ==>
      Scan(r) == Some(ControlSequence(Values([PlaneCode(plane), 2, color.red, color.green, color.blue]), 'm'))
      && IsValid(r)
    ensures useColons ==> r == WithColons(RenderParams(RgbParams(color, PlaneCode(plane)), 'm')) && !IsValid(r)
  {
    var fg := GroundColor(color, true);
    var bg := GroundColor(color, false);
    RenderScans([PlaneCode(plane), 2, color.red, color.green, color.blue], 'm');
    ColonRenderingInvalid(RgbParams(color, PlaneCode(plane)), 'm');
    if plane == Foreground then (if useColons then fg.0 else fg.1)
    else if useColons then bg.0 else bg.1
  }

  /** The colon form of a 24-bit colour is the colon transliteration of a
      sequence the scanner reads as code, 2, an empty slot, red, green, blue. */
  lemma RgbColonSlots(color: Types.RGBColor, plane: ColorPlane)
    ensures exists s :: (RgbColor(color, plane, true) == WithColons(s) &&
      Scan(s) == Some(ControlSequence(RgbParams(color, PlaneCode(plane)), 'm')))
  {
    var s := RenderParams(RgbParams(color, PlaneCode(plane)), 'm');
    RenderParamsScans(RgbParams(color, PlaneCode(plane)), 'm');
    assert RgbColor(color, plane, true) == WithColons(s);
  }

  /** The corrected palette builder and the 24-bit builder agree on the code
      of every plane. */
  lemma PalettePlaneAgreesWithRgb(index: Types.Byte, color: Types.RGBColor, plane: ColorPlane)
    ensures Scan(PaletteColor(index, plane, false)).value.params[0]
         == Scan(RgbColor(color, plane, false)).value.params[0]
  {
  }

  // ---------------------------------------------------------------------
  // `FsSequencer` and `FpSequencer`

  /** ESC followed by an Fs final byte. */
  function FsSequence(f: FsFunction): (r: string)
    ensures |r| == 2 && r[0] == ESC && r[1] == FsFinal(f) && '[' !in r && !IsValid(r)
  {
    [ESC, FsFinal(f)]
  }

  /** ESC followed by an Fp final byte. */
  function FpSequence(f: FpFunction): (r: string)
    ensures |r| == 2 && r[0] == ESC && r[1] == FpFinal(f) && '[' !in r && !IsValid(r)
  {
    [ESC, FpFinal(f)]
  }

  /** `getRIS`: "ESC c". */
  function ResetToInitialState(): (r: string)
    ensures r == [ESC, 'c'] && !IsValid(r)
  {
    FsSequence(RIS)
  }

  /** `getDECSC`: "ESC 7". */
  function DecSaveCursor(): (r: string)
    ensures r == [ESC, '7'] && !IsValid(r)
  {
    FpSequence(DECSC)
  }

  /** `getDECRC`: "ESC 8". */
  function DecRestoreCursor(): (r: string)
    ensures r == [ESC, '8'] && !IsValid(r)
  {
    FpSequence(DECRC)
  }

  // ---------------------------------------------------------------------
  // `ANSISequencer`: the facade

  /** `ANSISequencer::CursorDirection`. */
  datatype CursorDirection = Up | Down | Forward | Backward | NextLine | PreviousLine | Column

  /** `ANSISequencer::CursorMoveType`: CUP or HVP addressing. */
  datatype CursorMoveType = EditorFunction | FormatEffector

  /** `ANSISequencer::CursorSequenceType`: SCP/RCP or DECSC/DECRC. */
  datatype CursorSequenceType = Fe | Fp

  /** `ANSISequencer::ScrollPageType`. */
  datatype ScrollPageType = PageUp | PageDown

  /** The CSI function `MoveCursor` uses for a direction. */
  function DirectionFunction(direction: CursorDirection): CsiFunction
  {
    match direction
    case Up => CUU
    case Down => CUD
    case Forward => CUF
    case Backward => CUB
    case NextLine => CNL
    case PreviousLine => CPL
    case Column => CHA
  }

  /** `ANSISequencer::MoveCursor`: the one-count builder of the direction. */
  function MoveCursor(direction: CursorDirection, cells: nat := 1): (r: string)
    ensures r == Render([cells], CsiFinal(DirectionFunction(direction)))
    ensures Scan(r) == Some(ControlSequence([Value(cells)], CsiFinal(DirectionFunction(direction))))
    ensures IsValid(r)
  {
    match direction
    case Up => CursorUp(cells)
    case Down => CursorDown(cells)
    case Forward => CursorForward(cells)
    case Backward => CursorBack(cells)
    case PreviousLine => CursorPreviousLine(cells)
    case Column => CursorHorizontalAbsolute(cells)
    case NextLine => CursorNextLine(cells)
  }

  /** Different moves give different sequences. */
  lemma MoveCursorInjective(d1: CursorDirection, n1: nat, d2: CursorDirection, n2: nat)
    requires MoveCursor(d1, n1) == MoveCursor(d2, n2)
    ensures d1 == d2 && n1 == n2
  {
    var f1, f2 := DirectionFunction(d1), DirectionFunction(d2);
    assert CsiFinal(f1) == CsiFinal(f2) && Value(n1) == Value(n2);
    CsiFinalInverse(f1, f2);
  }

  /** `ScrollPage`: as written, `Down` emits SU ('S') and `Up` emits SD ('T'). */
  function ScrollPage(direction: ScrollPageType, lines: nat := 1): (r: string)
    ensures r == Render([lines], if direction == PageDown then 'S' else 'T')
    ensures Scan(r) == Some(ControlSequence([Value(lines)], if direction == PageDown then 'S' else 'T'))
    ensures IsValid(r)
  {
    if direction == PageDown then ScrollUp(lines) else ScrollDown(lines)
  }

  /** `ClearScreen`: ED, clearing the entire screen unless told otherwise. */
  function ClearScreen(mode: DisplayErase := EntireScreen): (r: string)
    ensures r == Render([DisplayEraseCode(mode)], 'J')
    ensures Scan(r) == Some(ControlSequence([Value(DisplayEraseCode(mode))], 'J')) && IsValid(r)
  {
    EraseInDisplay(mode)
  }

  /** `EraseLine`: EL, erasing the entire line unless told otherwise. */
  function EraseLine(mode: LineErase := EntireLine): (r: string)
    ensures r == Render([LineEraseCode(mode)], 'K')
    ensures Scan(r) == Some(ControlSequence([Value(LineEraseCode(mode))], 'K')) && IsValid(r)
  {
    EraseInLine(mode)
  }

  /** `SetDisplay`. */
  function SetDisplay(attribute: DisplayAttribute): (r: string)
    ensures r == Render([AttributeCode(attribute)], 'm')
    ensures Scan(r) == Some(ControlSequence([Value(AttributeCode(attribute))], 'm')) && IsValid(r)
  {
    DisplayAttributeSequence(attribute)
  }

  /** `SetColor(fg, bg)`. */
  function SetColor(fg: SgrNamedColor, bg: SgrNamedColor): (r: string)
    ensures r == Render([ForegroundCode(fg), BackgroundCode(bg)], 'm')
    ensures Scan(r) == Some(ControlSequence([Value(ForegroundCode(fg)), Value(BackgroundCode(bg))], 'm'))
    ensures IsValid(r)
  {
    NamedColors(fg, bg)
  }

  /** `ResetDisplay`: "ESC[0m". */
  function ResetDisplay(): (r: string)
    ensures Scan(r) == Some(ControlSequence([Value(0)], 'm')) && IsValid(r)
  {
    DisplayAttributeSequence(Reset)
  }

  /** `ResetColors`: "ESC[39;49m". */
  function ResetColors(): (r: string)
    ensures r == NamedColors(SgrNamedColor.Default, SgrNamedColor.Default)
  {
    ColorsReset()
  }

  /** `ResetTerminal`: RIS, "ESC c". */
  function ResetTerminal(): (r: string)
    ensures r == [ESC, 'c'] && !IsValid(r)
  {
    ResetToInitialState()
  }

  /** `ANSISequencer`'s three configuration fields, with their defaults:
      colons for colours, CUP addressing, and DECSC/DECRC cursor memory. */
  datatype AnsiSequencer = AnsiSequencer(
    useColonsForColor: bool := true,
    cursorMoveType: CursorMoveType := EditorFunction,
    cursorMemorySequenceType: CursorSequenceType := Fp)
  {
    /** `moveCursor(row, column)`: HVP only for `FormatEffector`, CUP otherwise. */
    function MoveCursorTo(row: nat := 1, column: nat := 1): (r: string)
      ensures r == Render([row, column], if cursorMoveType == FormatEffector then 'f' else 'H')
      ensures Scan(r) == Some(ControlSequence([Value(row), Value(column)],
        if cursorMoveType == FormatEffector then 'f' else 'H'))
      ensures IsValid(r)
    {
      if cursorMoveType == FormatEffector then HorizontalVerticalPosition(row, column)
      else CursorPosition(row, column)
    }

    /** `saveCursor`: SCP for `Fe`, DECSC otherwise; only the first is a CSI. */
    function SaveCursor(): (r: string)
      ensures cursorMemorySequenceType == Fe ==> Scan(r) == Some(ControlSequence([], 's'))
      ensures cursorMemorySequenceType == Fp ==> r == [ESC, FpFinal(DECSC)]
      ensures IsValid(r) <==> cursorMemorySequenceType == Fe
    {
      if cursorMemorySequenceType == Fe then SaveCursorPosition() else DecSaveCursor()
    }

    /** `restoreCursor`: RCP for `Fe`, DECRC otherwise; only the first is a CSI. */
    function RestoreCursor(): (r: string)
      ensures cursorMemorySequenceType == Fe ==> Scan(r) == Some(ControlSequence([], 'u'))
      ensures cursorMemorySequenceType == Fp ==> r == [ESC, FpFinal(DECRC)]
      ensures IsValid(r) <==> cursorMemorySequenceType == Fe
    {
      if cursorMemorySequenceType == Fe then RestoreCursorPosition() else DecRestoreCursor()
    }

    /** `setColor(uint8_t, type)`: a palette colour, for the background unless
        told otherwise. It forwards to the palette builder as written, so the
        sequence carries the code of the other plane: 38 for the default
        `Background`, 48 for `Foreground`. Valid exactly when colons are off. */
    function SetPaletteColor(color: Types.Byte, plane: ColorPlane := Background): (r: string)
      ensures !useColonsForColor ==> r == Render([PlaneCode(OtherPlane(plane)), 5, color], 'm')
      ensures !useColonsForColor ==>
        Scan(r) == Some(ControlSequence([Value(PlaneCode(OtherPlane(plane))), Value(5), Value(color)], 'm'))
      ensures useColonsForColor ==> r == WithColons(RenderParams(PaletteParams(PlaneCode(OtherPlane(plane)), color), 'm'))
      ensures IsValid(r) <==> !useColonsForColor
    {
      PaletteColorAsWritten(color, plane, useColonsForColor)
    }

    /** `setColor(RGB, type)`: a 24-bit colour, for the foreground unless told
        otherwise; valid exactly when colons are off. */
    function SetRgbColor(color: Types.RGBColor, plane: ColorPlane := Foreground): (r: string)
      ensures !useColonsForColor ==> r == Render([PlaneCode(plane), 2, color.red, color.green, color.blue], 'm')
      ensures useColonsForColor ==> r == WithColons(RenderParams(RgbParams(color, PlaneCode(plane)), 'm'))
      ensures !useColonsForColor ==>
        Scan(r) == Some(ControlSequence(Values([PlaneCode(plane), 2, color.red, color.green, color.blue]), 'm'))
      ensures IsValid(r) <==> !useColonsForColor
    {
      RgbColor(color, plane, useColonsForColor)
    }
  }

  /** The facade's defaults: CUP addressing, DECSC/DECRC cursor memory,
      and colour sequences with colons, which the validator rejects. A
      palette colour for the default plane, `Background`, carries the
      foreground code 38, since the facade forwards to the builder as written. */
  lemma FacadeDefaults(row: nat, column: nat, color: Types.Byte, plane: ColorPlane)
    ensures AnsiSequencer().MoveCursorTo(row, column) == CursorPosition(row, column)
    ensures AnsiSequencer().SaveCursor() == [ESC, '7'] && AnsiSequencer().RestoreCursor() == [ESC, '8']
    ensures AnsiSequencer().SetPaletteColor(color, plane) == PaletteColorAsWritten(color, plane, true)
    ensures AnsiSequencer().SetPaletteColor(color) == WithColons(RenderParams(PaletteParams(38, color), 'm'))
    ensures !IsValid(AnsiSequencer().SetPaletteColor(color, plane))
  {
  }

  /** `ClearScreen` and `EraseLine` clear everything by default. */
  lemma ClearDefaults()
    ensures ClearScreen() == "\U{1B}[2J" && EraseLine() == "\U{1B}[2K"
  {
    assert Decimal(2) == "2";
    RenderOne(2, 'J');
    RenderOne(2, 'K');
  }

  /** The attribute reset sequence. */
  lemma ResetDisplayExample()
    ensures ResetDisplay() == "\U{1B}[0m"
  {
    assert Decimal(0) == "0";
    RenderOne(0, 'm');
  }

}
