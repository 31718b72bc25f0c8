/** Value and counter types of `libs::types`: `ObjectCounter<T>`, the
    integer instantiations of `Range<T>`, and `RGBColor` with its two-entry
    named-colour table. The later revision of the same header repeats
    `ObjectCounter` and `Range` unchanged; its larger colour table is in
    module `TypesRevised`. */
module Types {
  import opened Numerals

  /** `uint8_t`. */
  type Byte = x: int | 0 <= x < 256

  /** The two static counters of one instantiation `ObjectCounter<T>`. Every
      object of type `T` shares them, so the model keeps them in one object
      that each construction and destruction of a `T` updates. */
  class ObjectCounter {
    var created: nat
    var alive: nat

    /** No more objects can be alive than were ever created. */
    ghost predicate Valid()
      reads this
    {
      alive <= created
    }

    /** Both statics are zero-initialised. */
    constructor ()
      ensures Valid() && created == 0 && alive == 0
    {
      created := 0;
      alive := 0;
    }

    /** The default constructor of a counted object. */
    method Construct()
      requires Valid()
      modifies this
      ensures Valid()
      ensures created == old(created) + 1 && alive == old(alive) + 1
    {
      Increment();
    }

    /** The copy constructor of a counted object: counted like any other construction. */
    method CopyConstruct()
      requires Valid()
      modifies this
      ensures Valid()
      ensures created == old(created) + 1 && alive == old(alive) + 1
    {
      Increment();
    }

    /** The destructor: one object fewer is alive; the creation count stays. */
    method Destroy()
      requires Valid() && alive > 0
      modifies this
      ensures Valid()
      ensures created == old(created) && alive == old(alive) - 1
    {
      alive := alive - 1;
    }

    method Increment()
      requires Valid()
      modifies this
      ensures Valid()
      ensures created == old(created) + 1 && alive == old(alive) + 1
    {
      created := created + 1;
      alive := alive + 1;
    }
  }

  /** `Range<T>` for an integral `T`: an inclusive interval with constant bounds. */
  datatype Range = Range(left: int, right: int)

  /** The constructor `Range(a, b)`: the smaller argument becomes the left bound. */
  function MakeRange(a: int, b: int): (r: Range)
    ensures r.left <= r.right
    ensures (r.left == a && r.right == b) || (r.left == b && r.right == a)
  {
    if a < b then Range(a, b) else Range(b, a)
  }

  /** `Range<char>(a, b)`: a range over character codes. */
  function CharRange(a: char, b: char): (r: Range)
    ensures r == MakeRange(a as int, b as int)
  {
    MakeRange(a as int, b as int)
  }

  /** The converting constructor `Range<T>(const Range<R>&)` for a
      conversion that keeps every value, such as `char` to `int`: it copies
      both bounds as they are, without ordering them again. */
  function Convert(r: Range): (c: Range)
    ensures c.left == r.left && c.right == r.right
  {
    Range(r.left, r.right)
  }

  /** `getLength`: the distance between the bounds. */
  function Length(r: Range): (n: nat)
    requires r.left <= r.right
    ensures IsIn(r, r.left + n) && !IsIn(r, r.left + n + 1)
  {
    r.right - r.left
  }

  /** `isIn`: inclusive at both ends. */
  predicate IsIn(r: Range, v: int)
  {
    v >= r.left && v <= r.right
  }

  /** `toString`: "(" left "," right ")". */
  function RangeText(r: Range): (t: string)
    ensures |t| >= 5 && t[0] == '(' && t[|t| - 1] == ')' && ',' in t
  {
    "(" + IntText(r.left) + "," + IntText(r.right) + ")"
  }

  function Min(a: int, b: int): int { if a <= b then a else b }

  function Max(a: int, b: int): int { if a <= b then b else a }

  /** Whatever the argument order, a constructed range holds exactly the
      integers between the two arguments, both included. */
  lemma IsInConstructed(a: int, b: int, v: int)
    ensures IsIn(MakeRange(a, b), v) <==> Min(a, b) <= v <= Max(a, b)
  {
  }

  /** A range holds `getLength() + 1` integers. */
  lemma {:induction false} LengthCountsMembers(r: Range)
    requires r.left <= r.right
    ensures |set v | r.left <= v <= r.right && IsIn(r, v)| == Length(r) + 1
    decreases r.right - r.left
  {
    var members := set v | r.left <= v <= r.right && IsIn(r, v);
    if r.left == r.right {
      assert members == {r.left};
    } else {
      var shorter := Range(r.left, r.right - 1);
      LengthCountsMembers(shorter);
      var rest := set v | shorter.left <= v <= shorter.right && IsIn(shorter, v);
      assert members == rest + {r.right} by {
        forall v
          ensures v in members <==> v in rest || v == r.right
        {
        }
      }
      assert r.right !in rest;
    }
  }

  /** `toString` can be read back: the only comma separates the two bounds,
      and the text on each side of it is the numeral of that bound. */
  lemma RangeTextReadsBack(r: Range)
    ensures var t, k := RangeText(r), |IntText(r.left)| + 1;
      k < |t| - 1 && t[0] == '(' && t[k] == ',' && t[|t| - 1] == ')' &&
      (forall i :: 0 <= i < |t| && t[i] == ',' ==> i == k) &&
      IsIntText(t[1..k]) && ParseInt(t[1..k]) == r.left &&
      IsIntText(t[k + 1..|t| - 1]) && ParseInt(t[k + 1..|t| - 1]) == r.right
  {
    var a, b := IntText(r.left), IntText(r.right);
    assert ',' !in a && ',' !in b;
    Bracketed(a, b);
    ParseIntOfIntText(r.left);
    ParseIntOfIntText(r.right);
  }

  /** "(" + a + "," + b + ")" splits back into `a` and `b` at its only
      comma when neither holds one. */
  lemma Bracketed(a: string, b: string)
    requires ',' !in a && ',' !in b
    ensures var t, k := "(" + a + "," + b + ")", |a| + 1;
      k < |t| - 1 && t[0] == '(' && t[k] == ',' && t[|t| - 1] == ')' &&
      (forall i :: 0 <= i < |t| && t[i] == ',' ==> i == k) &&
      t[1..k] == a && t[k + 1..|t| - 1] == b
  {
    var t, k := "(" + a + "," + b + ")", |a| + 1;
    forall i | 0 <= i < |t| && i != k
      ensures t[i] != ','
    {
      if 1 <= i < k {
        assert t[i] == a[i - 1];
      } else if k < i < |t| - 1 {
        assert t[i] == b[i - k - 1];
      }
    }
  }

  /** The example of the unit tests: `Range(5, -2)` is `(-2,5)` with length 7. */
  lemma ReversedArgumentsExample()
    ensures MakeRange(5, -2) == Range(-2, 5) && Length(MakeRange(5, -2)) == 7
    ensures RangeText(MakeRange(5, -2)) == "(-2,5)"
    ensures Length(MakeRange(-2, 0)) == 2 && IsIn(MakeRange(-2, 0), -2) && IsIn(MakeRange(-2, 0), 0)
    ensures !IsIn(MakeRange(-2, 0), 2)
  {
    assert Decimal(2) == "2";
    assert Decimal(5) == "5";
  }

  /** Converting `Range<char>('a', 'z')` to `Range<int>` gives the bounds 97 and 122. */
  lemma ConvertCharRangeExample()
    ensures Convert(CharRange('a', 'z')) == Range(97, 122)
  {
  }

  /** The names of the colour table in this revision. */
  datatype ColorName = Black | Teal

  /** `RGBColor`: three constant `uint8_t` components. The constructor
      `RGBColor(r, g, b)` is the datatype constructor itself. */
  datatype RGBColor = RGBColor(red: Byte, green: Byte, blue: Byte)

  /** The static table `colorCodes` of `RGBColor::Get`. */
  function ColorCodes(name: ColorName): (codes: seq<Byte>)
    ensures |codes| == 3
  {
    match name
    case Black => [0, 0, 0]
    case Teal => [0, 128, 128]
  }

  /** `RGBColor::Get(color, shift)`. */
  function Get(name: ColorName, shift: nat := 0): (b: Byte)
    requires shift < 3
    ensures b in ColorCodes(name)
  {
    ColorCodes(name)[shift]
  }

  /** The constructor `RGBColor(ColorName)`, whose default argument is `Black`. */
  function NamedColor(name: ColorName := Black): (c: RGBColor)
    ensures [c.red, c.green, c.blue] == ColorCodes(name)
  {
    RGBColor(Get(name, 0), Get(name, 1), Get(name, 2))
  }

  lemma NamedColorValues()
    ensures NamedColor() == RGBColor(0, 0, 0)
    ensures NamedColor(Teal) == RGBColor(0, 128, 128)
  {
  }
}
