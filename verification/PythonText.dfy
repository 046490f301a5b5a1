/** The string operations the modelled code shares. */
module PythonText {

  /** What `str.strip` strips. */
  predicate IsSpace(c: char) {
    || '\t' <= c <= '\r' || '\U{001C}' <= c <= ' ' || c == '\U{0085}' || c == '\U{00A0}' || c == '\U{1680}'
    || '\U{2000}' <= c <= '\U{200A}' || c == '\U{2028}' || c == '\U{2029}' || c == '\U{202F}' || c == '\U{205F}' || c == '\U{3000}'
  }

  function StripLeft(s: string): string {
    if s != [] && IsSpace(s[0]) then StripLeft(s[1..]) else s
  }

  function StripRight(s: string): string {
    if s != [] && IsSpace(s[|s| - 1]) then StripRight(s[..|s| - 1]) else s
  }

  function Strip(s: string): string {
    StripRight(StripLeft(s))
  }

  /** Nothing but white space. */
  predicate Blank(s: string) {
    s == [] || (IsSpace(s[0]) && Blank(s[1..]))
  }

  lemma {:induction false} StripLeftOfBlank(s: string)
    ensures StripLeft(s) == [] <==> Blank(s)
    ensures !Blank(s) ==> !IsSpace(StripLeft(s)[0])
  {
    if s != [] && IsSpace(s[0]) {
      StripLeftOfBlank(s[1..]);
    }
  }

  lemma {:induction false} StripRightKeepsFirst(s: string)
    requires s != [] && !IsSpace(s[0])
    ensures StripRight(s) != []
  {
    if IsSpace(s[|s| - 1]) {
      assert |s| > 1 && s[..|s| - 1][0] == s[0];
      StripRightKeepsFirst(s[..|s| - 1]);
    }
  }

  /** Stripping leaves nothing exactly of a blank string. */
  lemma {:induction false} StripIsEmptyIff(s: string)
    ensures Strip(s) == [] <==> Blank(s)
  {
    StripLeftOfBlank(s);
    if !Blank(s) {
      StripRightKeepsFirst(StripLeft(s));
    }
  }

  /** The code points `str.isspace` accepts, of those below U+3001. */
  lemma {:induction false} SpacesAre(c: char)
    ensures IsSpace(c) <==>
      c as int in {0x9, 0xA, 0xB, 0xC, 0xD, 0x1C, 0x1D, 0x1E, 0x1F, 0x20, 0x85, 0xA0, 0x1680,
                   0x2000, 0x2001, 0x2002, 0x2003, 0x2004, 0x2005, 0x2006, 0x2007, 0x2008, 0x2009, 0x200A,
                   0x2028, 0x2029, 0x202F, 0x205F, 0x3000}
  {
  }

  predicate AllSpaces(s: string) {
    forall i | 0 <= i < |s| :: IsSpace(s[i])
  }

  lemma {:induction false} StripLeftCut(s: string) returns (k: nat)
    ensures k <= |s| && StripLeft(s) == s[k..] && AllSpaces(s[..k]) && (k < |s| ==> !IsSpace(s[k]))
  {
    k := 0;
    if s != [] && IsSpace(s[0]) {
      var rest := StripLeftCut(s[1..]);
      k := rest + 1;
      assert s[1..][..rest] == s[1..k];
      assert s[..k] == [s[0]] + s[1..k];
    }
  }

  lemma {:induction false} StripRightCut(s: string) returns (k: nat)
    ensures k <= |s| && StripRight(s) == s[..k] && AllSpaces(s[k..]) && (k > 0 ==> !IsSpace(s[k - 1]))
  {
    k := |s|;
    if s != [] && IsSpace(s[|s| - 1]) {
      var shorter := s[..|s| - 1];
      k := StripRightCut(shorter);
      assert s[k..] == shorter[k..] + [s[|s| - 1]];
    }
  }

  /** `inner` is the string between its outer spaces: nothing but spaces is cut, and no space is left
      at either end. */
  ghost predicate Trims(s: string, inner: string) {
    && (exists a, b :: 0 <= a <= b <= |s| && inner == s[a..b] && AllSpaces(s[..a]) && AllSpaces(s[b..]))
    && (inner != [] ==> !IsSpace(inner[0]) && !IsSpace(inner[|inner| - 1]))
  }

  lemma {:induction false} StripTrims(s: string)
    ensures Trims(s, Strip(s))
  {
    var a := StripLeftCut(s);
    var left := s[a..];
    var k := StripRightCut(left);
    assert Strip(s) == s[a..a + k];
    assert s[a + k..] == left[k..];
    assert a <= a + k <= |s| && Strip(s) == s[a..a + k] && AllSpaces(s[..a]) && AllSpaces(s[a + k..]);
  }

  /** What is not a space survives. */
  lemma {:induction false} StripKeeps(s: string, c: char)
    requires !IsSpace(c)
    ensures c in Strip(s) <==> c in s
  {
    StripTrims(s);
    var a, b :| 0 <= a <= b <= |s| && Strip(s) == s[a..b] && AllSpaces(s[..a]) && AllSpaces(s[b..]);
    assert forall i | 0 <= i < a :: s[..a][i] == s[i];
    assert forall i | b <= i < |s| :: s[b..][i - b] == s[i];
    if i :| 0 <= i < |s| && s[i] == c {
      assert a <= i < b;
      assert s[a..b][i - a] == c;
    }
  }
}
