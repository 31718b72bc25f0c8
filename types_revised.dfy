/** The later revision of the types header (namespace `hlibs::types`). Its
    `ObjectCounter` and `Range` are the same code as in module `Types`, which
    models them once; what changed is the named-colour table of `RGBColor`,
    now five entries long. */
module TypesRevised {
  import Types
  type Byte = Types.Byte
  type RGBColor = Types.RGBColor

  datatype ColorName = Black | Teal | Crimson | Lavender | Isabelline

  /** The static table `colorCodes` of `RGBColor::Get`. */
  function ColorCodes(name: ColorName): (codes: seq<Byte>)
    ensures |codes| == 3
  {
    match name
    case Black => [0, 0, 0]
    case Teal => [0, 128, 128]
    case Crimson => [220, 20, 60]
    case Lavender => [230, 230, 250]
    case Isabelline => [244, 240, 236]
  }

  /** `RGBColor::Get(color, shift)`. */
  function Get(name: ColorName, shift: nat := 0): (b: Byte)
    requires shift < 3
    ensures b in ColorCodes(name)
  {
    ColorCodes(name)[shift]
  }

  /** The constructor `RGBColor(ColorName)`, whose default argument is `Black`. */
  function NamedColor(name: ColorName := Black): (c: RGBColor)
    ensures [c.red, c.green, c.blue] == ColorCodes(name)
  {
    Types.RGBColor(Get(name, 0), Get(name, 1), Get(name, 2))
  }

  /** The five named colours, and the default. */
  lemma NamedColorValues()
    ensures NamedColor() == Types.RGBColor(0, 0, 0)
    ensures NamedColor(Teal) == Types.RGBColor(0, 128, 128)
    ensures NamedColor(Crimson) == Types.RGBColor(220, 20, 60)
    ensures NamedColor(Lavender) == Types.RGBColor(230, 230, 250)
    ensures NamedColor(Isabelline) == Types.RGBColor(244, 240, 236)
  {
  }

  /** Distinct names give distinct colours. */
  lemma NamedColorInjective(a: ColorName, b: ColorName)
    requires NamedColor(a) == NamedColor(b)
    ensures a == b
  {
  }

  /** The revision extends the earlier table: the two names both share map to
      the same colour. */
  lemma ExtendsEarlierTable()
    ensures NamedColor(Black) == Types.NamedColor(Types.Black)
    ensures NamedColor(Teal) == Types.NamedColor(Types.Teal)
  {
  }
}
