/** The few string operations the modelled code uses: stripping and whitespace. */
module Text {

  /** ASCII whitespace. */
  predicate IsAsciiSpace(c: char) {
    c == ' ' || 9 <= c as int <= 13
  }

  /** The characters `str.strip()` removes. */
  predicate IsSpace(c: char) {
    var n := c as int;
    || 9 <= n <= 13 || 0x1C <= n <= 0x20 || n == 0x85 || n == 0xA0 || n == 0x1680
    || 0x2000 <= n <= 0x200A || n == 0x2028 || n == 0x2029 || n == 0x202F || n == 0x205F || n == 0x3000
  }

  function StripLeft(s: string, drop: char -> bool): (r: string)
    ensures |r| <= |s|
  {
    if s != "" && drop(s[0]) then StripLeft(s[1..], drop) else s
  }

  function StripRight(s: string, drop: char -> bool): (r: string)
    ensures |r| <= |s|
  {
    if s != "" && drop(s[|s| - 1]) then StripRight(s[..|s| - 1], drop) else s
  }

  function StripBy(s: string, drop: char -> bool): string {
    StripRight(StripLeft(s, drop), drop)
  }

  /** `s.strip()` */
  function Strip(s: string): string {
    StripBy(s, IsSpace)
  }

  ghost predicate Trimmed(s: string) {
    s == "" || (!IsSpace(s[0]) && !IsSpace(s[|s| - 1]))
  }

  lemma StripIsIdentity(s: string, drop: char -> bool)
    requires s == "" || (!drop(s[0]) && !drop(s[|s| - 1]))
    ensures StripBy(s, drop) == s
  {
  }

  lemma {:induction false} StripLeftFacts(s: string, drop: char -> bool)
    ensures var r := StripLeft(s, drop); r == s[|s| - |r|..] && (r != "" ==> !drop(r[0]))
    decreases |s|
  {
    if s != "" && drop(s[0]) {
      StripLeftFacts(s[1..], drop);
    }
  }

  lemma {:induction false} StripRightFacts(s: string, drop: char -> bool)
    ensures var r := StripRight(s, drop); r == s[..|r|] && (r != "" ==> !drop(r[|r| - 1]))
    decreases |s|
  {
    if s != "" && drop(s[|s| - 1]) {
      StripRightFacts(s[..|s| - 1], drop);
    }
  }

  /** Stripping cuts out a slice with no whitespace at its ends. */
  lemma StripFacts(s: string) returns (a: nat, b: nat)
    ensures a <= b <= |s| && Strip(s) == s[a..b] && Trimmed(Strip(s))
  {
    var left := StripLeft(s, IsSpace);
    var r := StripRight(left, IsSpace);
    StripLeftFacts(s, IsSpace);
    StripRightFacts(left, IsSpace);
    a := |s| - |left|;
    b := a + |r|;
    assert s[a..][..|r|] == s[a..b];
    if r != "" {
      assert r[0] == left[0];
    }
  }

  lemma {:induction false} StripLeftOver(ws: string, core: string, drop: char -> bool)
    requires forall c :: c in ws ==> drop(c)
    requires core != "" && !drop(core[0])
    ensures StripLeft(ws + core, drop) == core
  {
    if ws == "" {
      assert ws + core == core;
    } else {
      assert (ws + core)[1..] == ws[1..] + core;
      StripLeftOver(ws[1..], core, drop);
    }
  }

  lemma {:induction false} StripRightOver(core: string, ws: string, drop: char -> bool)
    requires forall c :: c in ws ==> drop(c)
    requires core != "" && !drop(core[|core| - 1])
    ensures StripRight(core + ws, drop) == core
  {
    if ws == "" {
      assert core + ws == core;
    } else {
      assert (core + ws)[..|core + ws| - 1] == core + ws[..|ws| - 1];
      assert forall c :: c in ws[..|ws| - 1] ==> c in ws;
      StripRightOver(core, ws[..|ws| - 1], drop);
    }
  }

  /** Whitespace around a non-empty trimmed text is all that is removed. */
  lemma StripAround(before: string, core: string, after: string)
    requires core != "" && Trimmed(core)
    requires forall c :: c in before ==> IsSpace(c)
    requires forall c :: c in after ==> IsSpace(c)
    ensures Strip(before + core + after) == core
  {
    assert before + core + after == before + (core + after);
    assert (core + after)[0] == core[0];
    StripLeftOver(before, core + after, IsSpace);
    StripRightOver(core, after, IsSpace);
  }
}
