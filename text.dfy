/** The string operations the system applies: the two the risk engines apply to instrument
    symbols, and the length JavaScript gives a string. */
module Text {

  /** `toUpperCase` on one character, for the ASCII letters symbols are written in. */
  function UpperChar(c: char): (u: char)
    ensures 'a' <= c <= 'z' ==> 'A' <= u <= 'Z'
    ensures !('a' <= c <= 'z') ==> u == c
  {
    if 'a' <= c <= 'z' then (c as int - 32) as char else c
  }

  /** `s.toUpperCase()`. */
  function ToUpper(s: string): (u: string)
    ensures |u| == |s|
    ensures forall i :: 0 <= i < |s| ==> u[i] == UpperChar(s[i])
    ensures forall i :: 0 <= i < |s| ==> !('a' <= u[i] <= 'z')
  {
    seq(|s|, i requires 0 <= i < |s| => UpperChar(s[i]))
  }

  /** Upper-casing twice is upper-casing once, so a symbol looked up after upper-casing
      finds the same entry whatever its original case. */
  lemma ToUpperIdempotent(s: string)
    ensures ToUpper(ToUpper(s)) == ToUpper(s)
  {
  }

  /** `s.includes(part)`: some window of `s` spells `part`. */
  function Contains(s: string, part: string): bool
    decreases |s|
  {
    if |s| < |part| then false
    else s[..|part|] == part || Contains(s[1..], part)
  }

  /** `part` is spelt by the window of `s` starting at `i`. */
  predicate OccursAt(s: string, part: string, i: int)
  {
    0 <= i <= |s| - |part| && s[i..i + |part|] == part
  }

  /** `Contains` holds exactly when `part` occurs at some position of `s`. */
  lemma {:induction false} ContainsIffOccurs(s: string, part: string)
    ensures Contains(s, part) <==> exists i :: OccursAt(s, part, i)
    decreases |s|
  {
    if |s| >= |part| {
      if s[..|part|] == part {
        assert OccursAt(s, part, 0);
      } else {
        assert |s| > 0;
        ContainsIffOccurs(s[1..], part);
        if Contains(s, part) {
          var i :| OccursAt(s[1..], part, i);
          assert s[i + 1..i + 1 + |part|] == s[1..][i..i + |part|];
          assert OccursAt(s, part, i + 1);
        } else {
          forall i | OccursAt(s, part, i)
            ensures false
          {
            assert s[i..i + |part|] == s[1..][i - 1..i - 1 + |part|];
            assert OccursAt(s[1..], part, i - 1);
          }
        }
      }
    }
  }

  /** The number of UTF-16 code units that encode one character: two for a character beyond
      the Basic Multilingual Plane, which takes a surrogate pair, one for any other. */
  function CodeUnits(c: char): (n: nat)
    ensures n == 1 || n == 2
    ensures n == 2 <==> c as int > 0xFFFF
  {
    if c as int > 0xFFFF then 2 else 1
  }

  /** `s.length`: JavaScript strings are sequences of UTF-16 code units. */
  function Utf16Length(s: string): nat
  {
    if s == [] then 0 else Utf16Length(s[..|s| - 1]) + CodeUnits(s[|s| - 1])
  }

  /** The UTF-16 length lies between the number of characters and twice that, and equals
      the number of characters exactly when none lies beyond the Basic Multilingual Plane. */
  lemma {:induction false} Utf16LengthBounds(s: string)
    ensures |s| <= Utf16Length(s) <= 2 * |s|
    ensures Utf16Length(s) == |s| <==> forall i :: 0 <= i < |s| ==> s[i] as int <= 0xFFFF
    decreases |s|
  {
    if s != [] {
      var init := s[..|s| - 1];
      Utf16LengthBounds(init);
      assert forall i :: 0 <= i < |init| ==> init[i] == s[i];
    }
  }

  /** Four characters beyond the Basic Multilingual Plane have length 8. */
  lemma Utf16LengthOfAstralKey()
    ensures Utf16Length("\U{1F511}\U{1F511}\U{1F511}\U{1F511}") == 8
  {
    var c := '\U{1F511}';
    assert "\U{1F511}\U{1F511}\U{1F511}\U{1F511}" == [c, c, c, c];
    assert [c, c, c, c][..3] == [c, c, c];
    assert [c, c, c][..2] == [c, c];
    assert [c, c][..1] == [c];
    assert [c][..0] == [];
    assert CodeUnits(c) == 2;
    assert Utf16Length([c]) == 2;
    assert Utf16Length([c, c]) == 4;
    assert Utf16Length([c, c, c]) == 6;
    assert Utf16Length([c, c, c, c]) == 8;
  }
}
