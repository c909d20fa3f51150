/** Text helpers: decimal rendering of counters and of amounts, the numbered slug candidates
    `base`, `base-1`, `base-2`, ..., an ASCII model of Django's `slugify`, ASCII
    lower-casing and the last segment of a `/`-separated path. */
module Text {

  function DigitChar(n: nat): char
    requires n < 10
  {
    ['0', '1', '2', '3', '4', '5', '6', '7', '8', '9'][n]
  }

  /** Decimal rendering of a natural number, as Python's `str(n)`. */
  function NatToString(n: nat): (r: string)
    ensures |r| >= 1
    ensures n >= 10 ==> |r| >= 2
    decreases n
  {
    if n < 10 then [DigitChar(n)] else NatToString(n / 10) + [DigitChar(n % 10)]
  }

  lemma DigitCharInjective(a: nat, b: nat)
    requires a < 10 && b < 10 && DigitChar(a) == DigitChar(b)
    ensures a == b
  {
  }

  /** Different numbers render differently. */
  lemma {:induction false} NatToStringInjective(a: nat, b: nat)
    requires NatToString(a) == NatToString(b)
    ensures a == b
    decreases a
  {
    var s := NatToString(a);
    if a < 10 {
      if b >= 10 {
        assert false;
      } else {
        DigitCharInjective(a, b);
      }
    } else {
      assert b >= 10;
      assert s[|s| - 1] == DigitChar(a % 10) && s[|s| - 1] == DigitChar(b % 10);
      DigitCharInjective(a % 10, b % 10);
      assert NatToString(a / 10) == s[..|s| - 1] == NatToString(b / 10);
      NatToStringInjective(a / 10, b / 10);
    }
  }

  /** An amount in cents written with two decimals, as Python's `f"{x:.2f}"` on
      the amount in rand. */
  function CentsToDecimal(c: int): (r: string)
    ensures |r| >= 4 && r[|r| - 3] == '.'
  {
    var m: nat := if c < 0 then -c else c;
    var digits := NatToString(m / 100) + "." + [DigitChar(m % 100 / 10), DigitChar(m % 10)];
    if c < 0 then "-" + digits else digits
  }

  /** The k-th slug tried for `base`: `base` itself, then `base-1`, `base-2`, ... */
  function SlugCandidate(base: string, k: nat): (r: string)
    ensures |r| >= |base|
    ensures r[..|base|] == base
  {
    if k == 0 then base else base + "-" + NatToString(k)
  }

  /** Every attempt of the slug loop tries a new string. */
  lemma SlugCandidateInjective(base: string, j: nat, k: nat)
    requires SlugCandidate(base, j) == SlugCandidate(base, k)
    ensures j == k
  {
    if j != 0 && k != 0 {
      var sj, sk := SlugCandidate(base, j), SlugCandidate(base, k);
      assert sj[|base| + 1..] == NatToString(j);
      assert sk[|base| + 1..] == NatToString(k);
      NatToStringInjective(j, k);
    } else if j != k {
      assert false;
    }
  }

  predicate IsUpper(c: char) { 'A' <= c <= 'Z' }
  predicate IsLowerAlnum(c: char) { 'a' <= c <= 'z' || '0' <= c <= '9' }
  predicate IsSpace(c: char) { c == ' ' || c == '\t' || c == '\n' || c == '\r' || c == 12 as char || c == 11 as char }

  function LowerChar(c: char): char
  {
    if IsUpper(c) then (c as int + 32) as char else c
  }

  /** ASCII `str.lower()`. */
  function LowerAscii(s: string): (r: string)
    ensures |r| == |s|
    ensures forall i :: 0 <= i < |s| ==> r[i] == LowerChar(s[i])
  {
    if |s| == 0 then [] else [LowerChar(s[0])] + LowerAscii(s[1..])
  }

  /** Characters a slug is made of. */
  predicate SlugChar(c: char)
  {
    IsLowerAlnum(c) || c == '_' || c == '-'
  }

  /** Step 1 of slugify: lower-case, then drop everything that is not a word
      character, whitespace or a hyphen. */
  function KeepWordSpaceHyphen(s: string): (r: string)
    ensures forall c :: c in r ==> SlugChar(c) || IsSpace(c)
  {
    if |s| == 0 then []
    else
      var c := LowerChar(s[0]);
      if SlugChar(c) || IsSpace(c) then [c] + KeepWordSpaceHyphen(s[1..])
      else KeepWordSpaceHyphen(s[1..])
  }

  predicate IsSeparator(c: char) { c == '-' || IsSpace(c) }

  function SkipSeparators(s: string): (r: string)
    ensures |r| <= |s|
    ensures |s| > 0 && IsSeparator(s[0]) ==> |r| < |s|
    ensures forall c :: c in r ==> c in s
  {
    if |s| > 0 && IsSeparator(s[0]) then SkipSeparators(s[1..]) else s
  }

  /** Step 2 of slugify: every run of hyphens and whitespace becomes one hyphen. */
  function CollapseSeparators(s: string): (r: string)
    ensures forall c :: c in r ==> c == '-' || (c in s && !IsSeparator(c))
    decreases |s|
  {
    if |s| == 0 then []
    else if IsSeparator(s[0]) then "-" + CollapseSeparators(SkipSeparators(s))
    else [s[0]] + CollapseSeparators(s[1..])
  }

  predicate IsStripped(c: char) { c == '-' || c == '_' }

  function StripLeft(s: string): (r: string)
    ensures |r| <= |s|
    ensures forall c :: c in r ==> c in s
    ensures |r| > 0 ==> !IsStripped(r[0])
    ensures |r| > 0 ==> r == s[|s| - |r|..]
  {
    if |s| > 0 && IsStripped(s[0]) then StripLeft(s[1..]) else s
  }

  function StripRight(s: string): (r: string)
    ensures |r| <= |s|
    ensures forall c :: c in r ==> c in s
    ensures |r| > 0 ==> !IsStripped(r[|r| - 1])
    ensures r == s[..|r|]
  {
    if |s| > 0 && IsStripped(s[|s| - 1]) then StripRight(s[..|s| - 1]) else s
  }

  /** ASCII model of Django's `slugify`: lower-case, drop punctuation, turn runs of
      hyphens and whitespace into one hyphen, strip hyphens and underscores from
      both ends. */
  function Slugify(s: string): (r: string)
    ensures forall c :: c in r ==> SlugChar(c)
    ensures |r| > 0 ==> !IsStripped(r[0]) && !IsStripped(r[|r| - 1])
  {
    var collapsed := CollapseSeparators(KeepWordSpaceHyphen(s));
    var left := StripLeft(collapsed);
    var r := StripRight(left);
    assert |r| > 0 ==> r[0] == left[0];
    r
  }

  /** `name.split('/')[-1]`: the text after the last slash (all of it when there
      is none). */
  function AfterLastSlash(s: string): (r: string)
    ensures '/' !in r
    ensures |r| <= |s| && r == s[|s| - |r|..]
    ensures |r| < |s| ==> s[|s| - |r| - 1] == '/'
  {
    if |s| == 0 then []
    else if s[|s| - 1] == '/' then []
    else
      var r := AfterLastSlash(s[..|s| - 1]);
      r + [s[|s| - 1]]
  }
}
