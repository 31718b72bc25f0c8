/** The earlier ANSI header, namespace `ansi`: a `CSI` object that holds the
    control sequence introducer as printable escaped text ("\033[" or
    "\x1B[", five characters each, never the escape byte itself), the
    `CSIEnclose` terminator table, the `Enclose` functor, and a
    `CSISequencer` with its one builder `setCUU`. */
module AnsiLegacy {
  import opened Numerals
  import AnsiGrammar
  import Ansi

  /** `EscapeCharacterType`. */
  datatype EscapeCharacterType = Octal | Hexadecimal

  /** The text `CSI::set` writes for an escape style: a backslash, the
      escaped code of ESC in that style, and '['. */
  function Introducer(charType: EscapeCharacterType): (r: string)
    ensures |r| == 5 && r[0] == '\\' && r[4] == '['
    ensures forall i :: 0 <= i < |r| ==> r[i] != AnsiGrammar.ESC
  {
    if charType == Hexadecimal then "\\x1B[" else "\\033["
  }

  /** The two styles write different texts. */
  lemma IntroducersDiffer()
    ensures Introducer(Octal) != Introducer(Hexadecimal)
  {
    assert Introducer(Octal)[1] == '0' && Introducer(Hexadecimal)[1] == 'x';
  }

  /** `class CSI`: the introducer text, rewritten in place by `set`. The
      private `type` member keeps its initial value `Octal`: nothing
      assigns it. */
  class CSI {
    var escapeType: EscapeCharacterType
    var csi: string

    /** The text always is one of the two introducers. */
    ghost predicate Valid()
      reads this
    {
      csi == Introducer(Octal) || csi == Introducer(Hexadecimal)
    }

    /** `CSI(charType)`, `Octal` by default. */
    constructor (charType: EscapeCharacterType := Octal)
      ensures Valid() && csi == Introducer(charType) && escapeType == Octal
    {
      escapeType := Octal;
      csi := "";
      new;
      Set(charType);
    }

    /** `set`: clears the text, then appends the introducer of `charType`,
        so the text depends on the last call only. */
    method Set(charType: EscapeCharacterType)
      modifies this
      ensures Valid() && csi == Introducer(charType) && escapeType == old(escapeType)
    {
      csi := [];
      if charType == Hexadecimal {
        csi := csi + "\\x1B[";
        return;
      }
      csi := csi + "\\033[";
    }

    /** `operator()`: the introducer text, five characters. */
    function Text(): (r: string)
      requires Valid()
      reads this
      ensures |r| == 5 && r[0] == '\\' && r[4] == '['
    {
      csi
    }
  }

  /** The unit test: octal by default, hexadecimal after `set(Hexadecimal)`,
      and the original text back after `set(Octal)`. */
  method SwitchStylesExample() returns (octal: string, hex: string, back: string)
    ensures octal == "\\033[" && hex == "\\x1B[" && back == octal
  {
    var c := new CSI();
    octal := c.Text();
    c.Set(Hexadecimal);
    hex := c.Text();
    c.Set(Octal);
    back := c.Text();
  }

  /** `CSIEnclose`: the fourteen final bytes of this revision. */
  datatype CSIEnclose = CUU | CUD | CUF | CUB | CNL | CPL | CHA | CUP | EL | ED | SU | SD | HVP | SGR

  /** `static_cast<char>` on a `CSIEnclose`. */
  function EncloseChar(e: CSIEnclose): char
  {
    match e
    case CUU => 'A'
    case CUD => 'B'
    case CUF => 'C'
    case CUB => 'D'
    case CNL => 'E'
    case CPL => 'F'
    case CHA => 'G'
    case CUP => 'H'
    case EL => 'K'
    case ED => 'J'
    case SU => 'S'
    case SD => 'T'
    case HVP => 'f'
    case SGR => 'm'
  }

  /** The same control function in the later terminator table. */
  function Later(e: CSIEnclose): Ansi.CsiFunction
  {
    match e
    case CUU => Ansi.CUU
    case CUD => Ansi.CUD
    case CUF => Ansi.CUF
    case CUB => Ansi.CUB
    case CNL => Ansi.CNL
    case CPL => Ansi.CPL
    case CHA => Ansi.CHA
    case CUP => Ansi.CUP
    case EL => Ansi.EL
    case ED => Ansi.ED
    case SU => Ansi.SU
    case SD => Ansi.SD
    case HVP => Ansi.HVP
    case SGR => Ansi.SGR
  }

  /** The later table keeps every terminator of this one, so the fourteen
      terminators are pairwise distinct letters. */
  lemma EncloseAgreesWithLaterTable(e: CSIEnclose, f: CSIEnclose)
    ensures EncloseChar(e) == Ansi.CsiFinal(Later(e))
    ensures AnsiGrammar.IsLetter(EncloseChar(e))
    ensures EncloseChar(e) == EncloseChar(f) ==> e == f
  {
    Ansi.CsiFinalInverse(Later(e), Later(f));
  }

  /** `struct Enclose`: a terminator, `SGR` unless given. */
  datatype Enclose = Enclose(enclose: CSIEnclose := SGR)
  {
    /** `operator()`. */
    function Call(): (c: char)
      ensures c == EncloseChar(enclose)
    {
      EncloseChar(enclose)
    }
  }

  /** The unit tests: `CSIEnclose::SGR` converts to 'm' and `Enclose{SD}`
      gives 'T'; a default `Enclose` holds `SGR` (src/ansi/ansi.hpp:64-65), so
      it gives 'm' too. */
  lemma EncloseExamples()
    ensures EncloseChar(SGR) == 'm' && Enclose(SD).Call() == 'T'
    ensures Enclose().Call() == 'm'
  {
  }

  /** `class CSISequencer`: owns a `CSI` set to the style it was built with. */
  class CSISequencer {
    const csi: CSI
    ghost const style: EscapeCharacterType

    ghost predicate Valid()
      reads this, csi
    {
      csi.Valid() && csi.csi == Introducer(style)
    }

    /** `CSISequencer(charType)`: `Octal` by default. */
    constructor (charType: EscapeCharacterType := Octal)
      ensures Valid() && style == charType && fresh(csi)
    {
      var c := new CSI(Octal);
      c.Set(charType);
      csi := c;
      style := charType;
    }

    /** `setCUU`: the introducer text, the decimal count, and 'A'. Being
        text rather than the escape byte, it is not a control sequence the
        later validator accepts. */
    method SetCUU(cells: nat := 1) returns (r: string)
      requires Valid()
      ensures r == Introducer(style) + Decimal(cells) + ['A']
      ensures !AnsiGrammar.IsValid(r)
    {
      var endChar := Enclose(CUU).Call();
      r := csi.Text() + Decimal(cells) + [endChar];
      assert r[0] == '\\';
      AnsiGrammar.GateNeverChangesVerdict(r);
    }
  }
}
