/**
 * `normalizePuskesmasName`: the canonical key under which health-centre
 * names are compared. Upper-casing is limited to ASCII; white space is the
 * set the JavaScript `\s` class and `String.prototype.trim` share.
 */
module Normalizer {

  /** JavaScript white space and line terminators (the `\s` class). */
  predicate IsSpace(c: char) {
    c == ' ' || c == '\t' || c == '\n' || c == '\r' || c == '\U{000B}' || c == '\U{000C}'
    || c == '\U{00A0}' || c == '\U{1680}' || ('\U{2000}' <= c <= '\U{200A}')
    || c == '\U{2028}' || c == '\U{2029}' || c == '\U{202F}' || c == '\U{205F}'
    || c == '\U{3000}' || c == '\U{FEFF}'
  }

  predicate AllSpace(s: string) {
    forall i :: 0 <= i < |s| ==> IsSpace(s[i])
  }

  predicate IsLower(c: char) {
    'a' <= c <= 'z'
  }

  predicate NoLower(s: string) {
    forall i :: 0 <= i < |s| ==> !IsLower(s[i])
  }

  function UpperChar(c: char): char {
    if IsLower(c) then (c as int - 32) as char else c
  }

  /** `toUpperCase()` restricted to ASCII letters */
  function ToUpper(s: string): (r: string)
    ensures |r| == |s|
    ensures forall i :: 0 <= i < |s| ==> !IsLower(r[i])
    ensures forall i :: 0 <= i < |s| ==> (r[i] == s[i] || IsLower(s[i]))
    ensures forall i :: 0 <= i < |s| && IsLower(s[i]) ==> 'A' <= r[i] <= 'Z' && r[i] as int + 32 == s[i] as int
  {
    seq(|s|, i requires 0 <= i < |s| => UpperChar(s[i]))
  }

  /** The index of the first non-space character at or after `i`. */
  function SkipSpaces(s: string, i: nat): (k: nat)
    requires i <= |s|
    ensures i <= k <= |s|
    ensures forall j :: i <= j < k ==> IsSpace(s[j])
    ensures k < |s| ==> !IsSpace(s[k])
    decreases |s| - i
  {
    if i == |s| || !IsSpace(s[i]) then i else SkipSpaces(s, i + 1)
  }

  /** The index just past the last non-space character in `s[lo..hi]`, or `lo` if there is none. */
  function SkipSpacesBack(s: string, lo: nat, hi: nat): (k: nat)
    requires lo <= hi <= |s|
    ensures lo <= k <= hi
    ensures forall j :: k <= j < hi ==> IsSpace(s[j])
    ensures k > lo ==> !IsSpace(s[k - 1])
    decreases hi - lo
  {
    if hi == lo || !IsSpace(s[hi - 1]) then hi else SkipSpacesBack(s, lo, hi - 1)
  }

  /** `trim()`: drop leading and trailing white space. */
  function Trim(s: string): (r: string)
    ensures r == "" || (!IsSpace(r[0]) && !IsSpace(r[|r| - 1]))
    ensures |r| <= |s|
    ensures NoLower(s) ==> NoLower(r)
  {
    var a := SkipSpaces(s, 0);
    var b := SkipSpacesBack(s, a, |s|);
    s[a..b]
  }

  /** `n.replace(/\s<numeral>$/, " <digit>")`: only a match at the very end is possible. */
  function ReplaceTrailingNumeral(n: string, numeral: string, digit: char): (r: string)
    requires |numeral| >= 1 && !IsLower(digit)
    ensures |r| <= |n|
    ensures NoLower(n) ==> NoLower(r)
  {
    var k := |numeral|;
    if |n| >= k + 1 && IsSpace(n[|n| - k - 1]) && n[|n| - k..] == numeral
    then n[..|n| - k - 1] + [' ', digit]
    else n
  }

  /** The three chained roman-numeral rewrites, I first, then II, then III. */
  function RewriteRoman(n: string): (r: string)
    ensures |r| <= |n|
    ensures NoLower(n) ==> NoLower(r)
  {
    ReplaceTrailingNumeral(ReplaceTrailingNumeral(ReplaceTrailingNumeral(n, "I", '1'), "II", '2'), "III", '3')
  }

  /** `n.replace(/^PUSKESMAS\s|^PUKESMAS\s/, "")`: one leading prefix, the first alternative tried first. */
  function StripPrefix(n: string): (r: string)
    ensures |r| <= |n|
    ensures NoLower(n) ==> NoLower(r)
  {
    if |n| >= 10 && n[..9] == "PUSKESMAS" && IsSpace(n[9]) then n[10..]
    else if |n| >= 9 && n[..8] == "PUKESMAS" && IsSpace(n[8]) then n[9..]
    else n
  }

  /** `normalizePuskesmasName(name)`; the empty string stands for every falsy input. */
  function Normalize(name: string): (r: string)
    ensures name == "" ==> r == ""
    ensures |r| <= |name|
    ensures NoLower(r)
  {
    if name == "" then "" else StripPrefix(RewriteRoman(Trim(ToUpper(name))))
  }

  // ---------------------------------------------------------------------
  // Reference descriptions and properties

  /** `n` ends with a white-space character followed by `numeral`. */
  predicate EndsWithNumeral(n: string, numeral: string) {
    |n| >= |numeral| + 1 && IsSpace(n[|n| - |numeral| - 1]) && n[|n| - |numeral|..] == numeral
  }

  /**
   * At most one roman-numeral rewrite applies: the three patterns exclude
   * one another, and a rewritten name ends in a digit, which none of the
   * later patterns can match.
   */
  lemma RewriteRomanAtMostOnce(n: string)
    ensures EndsWithNumeral(n, "I") ==> RewriteRoman(n) == n[..|n| - 2] + " 1"
    ensures EndsWithNumeral(n, "II") ==> RewriteRoman(n) == n[..|n| - 3] + " 2"
    ensures EndsWithNumeral(n, "III") ==> RewriteRoman(n) == n[..|n| - 4] + " 3"
    ensures !EndsWithNumeral(n, "I") && !EndsWithNumeral(n, "II") && !EndsWithNumeral(n, "III")
            ==> RewriteRoman(n) == n
  {
    var n1 := ReplaceTrailingNumeral(n, "I", '1');
    if EndsWithNumeral(n, "I") {
      assert n1[|n1| - 1] == '1';
      assert !EndsWithNumeral(n1, "II") && !EndsWithNumeral(n1, "III");
      assert !EndsWithNumeral(n, "II") by { assert n[|n| - 2] != 'I'; }
      assert !EndsWithNumeral(n, "III") by { assert n[|n| - 2] != 'I'; }
    } else {
      var n2 := ReplaceTrailingNumeral(n1, "II", '2');
      if EndsWithNumeral(n, "II") {
        assert n2[|n2| - 1] == '2';
        assert !EndsWithNumeral(n2, "III");
        assert !EndsWithNumeral(n, "III") by { assert n[|n| - 3] != 'I'; }
      }
    }
  }

  /** The prefix strip removes at most one prefix, and only one of the two spellings. */
  lemma StripPrefixOnce(n: string)
    ensures StripPrefix(n) == n || StripPrefix(n) == n[|n| - |StripPrefix(n)|..]
    ensures |n| >= 10 && n[..9] == "PUSKESMAS" && IsSpace(n[9]) ==> StripPrefix(n) == n[10..]
    ensures |n| >= 9 && n[..8] == "PUKESMAS" && IsSpace(n[8]) ==> StripPrefix(n) == n[9..]
    ensures (!(|n| >= 10 && n[..9] == "PUSKESMAS" && IsSpace(n[9]))
             && !(|n| >= 9 && n[..8] == "PUKESMAS" && IsSpace(n[8]))) ==> StripPrefix(n) == n
  {
    if |n| >= 10 && n[..9] == "PUSKESMAS" {
      assert n[..8] != "PUKESMAS" by { assert n[2] == 'S' && "PUKESMAS"[2] == 'K'; }
    }
  }

  /** Trim returns exactly the middle of a name padded with white space. */
  lemma TrimUnique(p: string, m: string, q: string)
    requires AllSpace(p) && AllSpace(q)
    requires m == "" || (!IsSpace(m[0]) && !IsSpace(m[|m| - 1]))
    ensures Trim(p + m + q) == m
  {
    var s := p + m + q;
    if m == "" {
      TrimBlank(p, q);
      assert s == p + q;
    } else {
      var a := SkipSpaces(s, 0);
      SkipPadding(p, m, q);
      var b := SkipSpacesBack(s, a, |s|);
      SkipPaddingBack(p, m, q);
      assert s[a..b] == m;
    }
  }

  lemma TrimBlank(p: string, q: string)
    requires AllSpace(p) && AllSpace(q)
    ensures Trim(p + q) == ""
  {
    var s := p + q;
    forall j | 0 <= j < |s| ensures IsSpace(s[j]) {
      if j < |p| { assert s[j] == p[j]; } else { assert s[j] == q[j - |p|]; }
    }
    assert SkipSpaces(s, 0) == |s|;
  }

  lemma SkipPadding(p: string, m: string, q: string)
    requires AllSpace(p) && m != "" && !IsSpace(m[0])
    ensures SkipSpaces(p + m + q, 0) == |p|
  {
    var s := p + m + q;
    assert s[|p|] == m[0];
    assert forall j :: 0 <= j < |p| ==> s[j] == p[j];
  }

  lemma SkipPaddingBack(p: string, m: string, q: string)
    requires AllSpace(q) && m != "" && !IsSpace(m[|m| - 1])
    ensures SkipSpacesBack(p + m + q, |p|, |p + m + q|) == |p| + |m|
  {
    var s := p + m + q;
    assert s[|p| + |m| - 1] == m[|m| - 1];
    assert forall j :: |p| + |m| <= j < |s| ==> s[j] == q[j - |p| - |m|];
  }

  lemma TrimIdempotent(s: string)
    ensures Trim(Trim(s)) == Trim(s)
  {
    TrimUnique("", Trim(s), "");
    assert "" + Trim(s) + "" == Trim(s);
  }

  lemma {:induction false} ToUpperIdempotent(s: string)
    ensures ToUpper(ToUpper(s)) == ToUpper(s)
  {
  }

  /** Upper-casing commutes with concatenation, and leaves white space alone. */
  lemma ToUpperAppend(a: string, b: string)
    ensures ToUpper(a + b) == ToUpper(a) + ToUpper(b)
  {
    assert forall i :: 0 <= i < |a| ==> (a + b)[i] == a[i];
    assert forall i :: |a| <= i < |a| + |b| ==> (a + b)[i] == b[i - |a|];
  }

  lemma ToUpperSpace(s: string)
    requires AllSpace(s)
    ensures ToUpper(s) == s
  {
  }

  /** The key ignores letter case: an upper-cased name normalises like the name itself. */
  lemma NormalizeIgnoresCase(name: string)
    ensures Normalize(ToUpper(name)) == Normalize(name)
  {
    ToUpperIdempotent(name);
  }

  lemma AllSpaceAppend(a: string, b: string)
    requires AllSpace(a) && AllSpace(b)
    ensures AllSpace(a + b)
  {
    forall j | 0 <= j < |a + b| ensures IsSpace((a + b)[j]) {
      if j < |a| { assert (a + b)[j] == a[j]; } else { assert (a + b)[j] == b[j - |a|]; }
    }
  }

  /** A string is its trimmed middle between two runs of white space. */
  lemma TrimSplit(s: string) returns (pre: string, post: string)
    ensures AllSpace(pre) && AllSpace(post)
    ensures s == pre + Trim(s) + post
  {
    var a := SkipSpaces(s, 0);
    var b := SkipSpacesBack(s, a, |s|);
    pre, post := s[..a], s[b..];
    SpaceRun(s, 0, a);
    SpaceRun(s, b, |s|);
    Split3(s, a, b);
  }

  lemma SpaceRun(s: string, i: nat, k: nat)
    requires i <= k <= |s| && forall j :: i <= j < k ==> IsSpace(s[j])
    ensures AllSpace(s[i..k])
  {
    forall j | 0 <= j < k - i ensures IsSpace(s[i..k][j]) { assert s[i..k][j] == s[i + j]; }
  }

  lemma Split3(s: string, a: nat, b: nat)
    requires a <= b <= |s|
    ensures s == s[..a] + s[a..b] + s[b..]
  {
  }

  /** Extra white space on either side does not change what `trim()` returns. */
  lemma TrimPadding(p: string, s: string, q: string)
    requires AllSpace(p) && AllSpace(q)
    ensures Trim(p + s + q) == Trim(s)
  {
    var pre, post := TrimSplit(s);
    var m := Trim(s);
    AllSpaceAppend(p, pre);
    AllSpaceAppend(post, q);
    Regroup(p, pre, m, post, q);
    TrimUnique(p + pre, m, post + q);
  }

  lemma Regroup(p: string, pre: string, m: string, post: string, q: string)
    ensures p + (pre + m + post) + q == (p + pre) + m + (post + q)
  {
  }

  /** The key ignores white space around the name. */
  lemma NormalizeIgnoresPadding(p: string, name: string, q: string)
    requires AllSpace(p) && AllSpace(q)
    ensures Normalize(p + name + q) == Normalize(name)
  {
    ToUpperAppend(p, name);
    ToUpperAppend(p + name, q);
    ToUpperSpace(p);
    ToUpperSpace(q);
    assert ToUpper(p + name + q) == p + ToUpper(name) + q;
    TrimPadding(p, ToUpper(name), q);
    if name == "" {
      assert Trim(ToUpper(name)) == "";
    }
  }

  /** The normalised key, one stage at a time. */
  lemma NormalizeSteps(name: string, u: string, r: string, out: string)
    requires name != "" && ToUpper(name) == u && Trim(u) == u && RewriteRoman(u) == r && StripPrefix(r) == out
    ensures Normalize(name) == out
  {
  }

  lemma TrimUnpadded(u: string)
    requires u == "" || (!IsSpace(u[0]) && !IsSpace(u[|u| - 1]))
    ensures Trim(u) == u
  {
    TrimUnique("", u, "");
    assert "" + u + "" == u;
  }

  lemma UpperFullName(s: string, u: string)
    requires s == "Puskesmas Gamping I" && u == "PUSKESMAS GAMPING I"
    ensures ToUpper(s) == u
  {
  }

  lemma RomanFullName(u: string, r: string)
    requires u == "PUSKESMAS GAMPING I" && r == "PUSKESMAS GAMPING 1"
    ensures Trim(u) == u && RewriteRoman(u) == r
  {
    TrimUnpadded(u);
    RewriteFullName(u, r);
  }

  lemma RewriteFullName(u: string, r: string)
    requires u == "PUSKESMAS GAMPING I" && r == "PUSKESMAS GAMPING 1"
    ensures RewriteRoman(u) == r
  {
    assert EndsWithNumeral(u, "I");
    RewriteRomanAtMostOnce(u);
    assert u[..|u| - 2] + " 1" == r;
  }

  lemma StripFullName(r: string, out: string)
    requires r == "PUSKESMAS GAMPING 1" && out == "GAMPING 1"
    ensures StripPrefix(r) == out
  {
    assert r[..9] == "PUSKESMAS";
  }

  /** "Puskesmas Gamping I": upper-cased, numeral rewritten, prefix dropped. */
  lemma NormalizeRomanAndPrefix(name: string)
    requires name == "Puskesmas Gamping I"
    ensures Normalize(name) == "GAMPING 1"
  {
    var u, r, out := "PUSKESMAS GAMPING I", "PUSKESMAS GAMPING 1", "GAMPING 1";
    UpperFullName(name, u);
    RomanFullName(u, r);
    StripFullName(r, out);
    NormalizeSteps(name, u, r, out);
  }

  lemma UpperUnchanged(s: string)
    requires NoLower(s)
    ensures ToUpper(s) == s
  {
  }

  lemma RomanMisspelt(u: string)
    requires u == "PUKESMAS GAMPING 1"
    ensures Trim(u) == u && RewriteRoman(u) == u
  {
    TrimUnpadded(u);
    RewriteRomanAtMostOnce(u);
    assert !EndsWithNumeral(u, "I") && !EndsWithNumeral(u, "II") && !EndsWithNumeral(u, "III");
  }

  lemma StripMisspelt(r: string, out: string)
    requires r == "PUKESMAS GAMPING 1" && out == "GAMPING 1"
    ensures StripPrefix(r) == out
  {
    assert r[..9] != "PUSKESMAS" by { assert r[2] == 'K'; }
    assert r[..8] == "PUKESMAS";
  }

  /** "PUKESMAS GAMPING 1": the misspelt prefix is dropped too. */
  lemma NormalizeMisspeltPrefix(name: string)
    requires name == "PUKESMAS GAMPING 1"
    ensures Normalize(name) == "GAMPING 1"
  {
    var out := "GAMPING 1";
    UpperUnchanged(name);
    RomanMisspelt(name);
    StripMisspelt(name, out);
    NormalizeSteps(name, name, name, out);
  }

  lemma NormalizeTrailingBlanks()
    ensures Normalize("Pukesmas Gamping 1  ") == Normalize("Pukesmas Gamping 1")
  {
    var x := "Pukesmas Gamping 1";
    assert "" + x + "  " == "Pukesmas Gamping 1  ";
    NormalizeIgnoresPadding("", x, "  ");
  }

  lemma UpperMixedCase()
    ensures ToUpper("Pukesmas Gamping 1") == "PUKESMAS GAMPING 1"
  {
  }

  lemma NormalizeMixedCase()
    ensures Normalize("Pukesmas Gamping 1") == Normalize("PUKESMAS GAMPING 1")
  {
    var x := "Pukesmas Gamping 1";
    NormalizeIgnoresCase(x);
    UpperMixedCase();
  }

  /** Both spellings of the same centre meet under the key, trailing blanks included. */
  lemma NormalizeSpellingsAgree()
    ensures Normalize("Puskesmas Gamping I") == "GAMPING 1"
    ensures Normalize("Pukesmas Gamping 1  ") == "GAMPING 1"
  {
    NormalizeRomanAndPrefix("Puskesmas Gamping I");
    NormalizeTrailingBlanks();
    NormalizeMixedCase();
    NormalizeMisspeltPrefix("PUKESMAS GAMPING 1");
  }

  lemma UpperBareName(s: string, u: string)
    requires s == "Gamping 1" && u == "GAMPING 1"
    ensures ToUpper(s) == u
  {
  }

  lemma RomanBareName(u: string)
    requires u == "GAMPING 1"
    ensures Trim(u) == u && RewriteRoman(u) == u && StripPrefix(u) == u
  {
    TrimUnpadded(u);
    RewriteRomanAtMostOnce(u);
    assert !EndsWithNumeral(u, "I") && !EndsWithNumeral(u, "II") && !EndsWithNumeral(u, "III");
    assert |u| < 10;
    assert u[..8] != "PUKESMAS" by { assert u[0] == 'G'; }
  }

  /** A selector value without the prefix: only upper-cased. */
  lemma NormalizeBareName(name: string)
    requires name == "Gamping 1"
    ensures Normalize(name) == "GAMPING 1"
  {
    var u := "GAMPING 1";
    UpperBareName(name, u);
    RomanBareName(u);
    NormalizeSteps(name, u, u, u);
  }
}
