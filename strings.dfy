/** The ASCII string helpers of `hlibs::facilities::strings`, and `CheckRange`,
    which the ANSI validator uses to reject bytes outside the printable range. */
module Strings {
  import opened Optional
  import opened Types

  predicate IsLower(c: char) { 'a' <= c <= 'z' }

  /** `::toupper` on an ASCII character in the "C" locale: a lower-case letter
      becomes its upper-case letter, every other character is returned as is. */
  function UpperChar(c: char): char
  {
    if IsLower(c) then (c as int - 32) as char else c
  }

  /** The character-by-character image of `s` under `::toupper`. */
  function Upper(s: string): (r: string)
    ensures |r| == |s| && forall i :: 0 <= i < |r| ==> !IsLower(r[i])
  {
    seq(|s|, i requires 0 <= i < |s| => UpperChar(s[i]))
  }

  /** `ToUpperCase`: copies the source and transforms the copy in place. */
  method ToUpperCase(source: string) returns (r: string)
    ensures r == Upper(source)
  {
    var str := new char[|source|](i requires 0 <= i < |source| => source[i]);
    var i := 0;
    while i < str.Length
      invariant 0 <= i <= str.Length
      invariant forall k :: 0 <= k < i ==> str[k] == UpperChar(source[k])
      invariant forall k :: i <= k < str.Length ==> str[k] == source[k]
    {
      str[i] := UpperChar(str[i]);
      i := i + 1;
    }
    r := str[..];
  }

  /** The length is kept; lower-case ASCII letters are raised; every other
      character, digits and spaces included, is kept. */
  lemma UpperMapsLettersOnly(s: string)
    ensures |Upper(s)| == |s|
    ensures forall i :: 0 <= i < |s| ==>
      if 'a' <= s[i] <= 'z' then 'A' <= Upper(s)[i] <= 'Z' && Upper(s)[i] as int == s[i] as int - 32
      else Upper(s)[i] == s[i]
  {
  }

  /** No lower-case ASCII letter is left, so a second pass changes nothing. */
  lemma UpperIdempotent(s: string)
    ensures forall i :: 0 <= i < |Upper(s)| ==> !IsLower(Upper(s)[i])
    ensures Upper(Upper(s)) == Upper(s)
  {
  }

  /** Every lower-case letter is raised; the upper-case one is kept. */
  method ToUpperCaseExample() returns (r: string)
    ensures r == "CAMELCASE"
  {
    r := ToUpperCase("camelCase");
  }

  /** `std::string_view::find(char)`: the first position of `c`, or none (`npos`). */
  function FindChar(s: string, c: char): (r: Option<nat>)
    ensures r.Some? ==> r.value < |s| && s[r.value] == c && c !in s[..r.value]
    ensures r.None? ==> c !in s
  {
    if s == [] then None
    else if s[0] == c then Some(0)
    else match FindChar(s[1..], c)
      case None => None
      case Some(k) => assert s[..k + 1] == [s[0]] + s[1..][..k]; Some(k + 1)
  }

  /** `Contains(source, char)`. */
  function ContainsChar(source: string, what: char): (r: bool)
    ensures r <==> what in source
  {
    FindChar(source, what) != None
  }

  /** `w` occurs in `s` at position `i`. */
  predicate OccursAt(s: string, w: string, i: int)
  {
    0 <= i && i + |w| <= |s| && s[i..i + |w|] == w
  }

  /** `std::string_view::find(string_view)`: the first position where `w`
      occurs in `s`, or none (`npos`). An empty `w` is found at position 0. */
  function FindString(s: string, w: string): (r: Option<nat>)
    ensures r.Some? ==> OccursAt(s, w, r.value) && forall j :: 0 <= j < r.value ==> !OccursAt(s, w, j)
    ensures r.None? ==> forall j :: !OccursAt(s, w, j)
  {
    if |w| > |s| then None
    else if s[..|w|] == w then Some(0)
    else
      var r := FindString(s[1..], w);
      assert !OccursAt(s, w, 0) by { assert s[0..|w|] == s[..|w|]; }
      forall j | 1 <= j
        ensures OccursAt(s, w, j) == OccursAt(s[1..], w, j - 1)
      {
        OccursShifted(s, w, j);
      }
      match r
      case None => None
      case Some(k) => Some(k + 1)
  }

  /** An occurrence past the first character is an occurrence in the rest. */
  lemma OccursShifted(s: string, w: string, j: int)
    requires s != [] && 1 <= j
    ensures OccursAt(s, w, j) == OccursAt(s[1..], w, j - 1)
  {
    if j + |w| <= |s| {
      var a, b := s[j..j + |w|], s[1..][j - 1..j - 1 + |w|];
      assert |a| == |b|;
      forall i | 0 <= i < |a|
        ensures a[i] == b[i]
      {
      }
      assert a == b;
    }
  }

  /** `Contains(source, string_view)`: `what` is a contiguous part of `source`. */
  function Contains(source: string, what: string): (r: bool)
    ensures r <==> exists i :: OccursAt(source, what, i)
  {
    FindString(source, what) != None
  }

  /** Every string contains the empty string. */
  lemma ContainsEmpty(source: string)
    ensures Contains(source, "")
  {
    assert OccursAt(source, "", 0);
  }

  lemma ContainsExamples()
    ensures ContainsChar("xXVvOfFvjW9zHyNAVzQL\n", '\n')
    ensures Contains("5D7OVjSrm0JLVEgTwae2", "m0JLVEg")
    ensures !Contains("MMWfSBhRBOiMau3yAfMO", "RBOj")
  {
    assert OccursAt("5D7OVjSrm0JLVEgTwae2", "m0JLVEg", 8);
    var s, w := "MMWfSBhRBOiMau3yAfMO", "RBOj";
    forall i | 0 <= i && i + |w| <= |s| ensures !OccursAt(s, w, i) {
      assert s[i..i + |w|][0] == s[i] && s[i..i + |w|][3] == s[i + 3];
    }
  }

  /** `CheckRange(source, range)`: every character of `source` lies in `range`. */
  function CheckRange(source: string, range: Range): (b: bool)
    ensures b <==> forall i :: 0 <= i < |source| ==> IsIn(range, source[i] as int)
  {
    if source == [] then true
    else IsIn(range, source[0] as int) && CheckRange(source[1..], range)
  }

  /** The examples of the unit tests: a lower-case alphabet lies in `'a'..'z'`
      (also after converting the range to `int`), one upper-case letter does
      not, and an SGR sequence lies in `ESC..'~'`. */
  lemma CheckRangeExamples()
    ensures CheckRange("abcdefghijklmnopqrstuvwxyz", CharRange('a', 'z'))
    ensures !CheckRange("abcdefghijKlmnopqrstuvwxyz", Convert(CharRange('a', 'z')))
  {
    var lower := "abcdefghijklmnopqrstuvwxyz";
    assert forall i :: 0 <= i < |lower| ==> 'a' <= lower[i] <= 'z';
    assert "abcdefghijKlmnopqrstuvwxyz"[10] == 'K';
  }

  lemma CheckRangeEscapeExample()
    ensures CheckRange("\U{1B}[38;2;0;255;1m", CharRange('\U{1B}', '~'))
  {
    var sgr := "\U{1B}[38;2;0;255;1m";
    assert forall i :: 0 <= i < |sgr| ==> '\U{1B}' <= sgr[i] <= '~';
  }
}
