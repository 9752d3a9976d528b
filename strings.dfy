/** String operations the test-case framework borrows from Python's `str`
    and `os.path`: prefix and suffix tests, `str.replace`, the last path
    component and decimal formatting of an `int`; and, for the model's own
    hostname decoder only, splitting at the first occurrence of a
    character. */
module Strings {

  predicate StartsWith(s: string, prefix: string) {
    |prefix| <= |s| && s[..|prefix|] == prefix
  }

  predicate EndsWith(s: string, suffix: string) {
    |suffix| <= |s| && s[|s| - |suffix|..] == suffix
  }

  /** `pat` occurs in `s` starting at index `i`. */
  predicate OccursAt(s: string, pat: string, i: int) {
    0 <= i && i + |pat| <= |s| && s[i..i + |pat|] == pat
  }

  /** Python's `s.replace(pat, rep)`: one left-to-right pass that replaces
      every non-overlapping occurrence of `pat`.  The framework only calls it
      with non-empty patterns. */
  function ReplaceAll(s: string, pat: string, rep: string): string
    requires pat != []
    decreases |s|
  {
    if |s| < |pat| then s
    else if s[..|pat|] == pat then rep + ReplaceAll(s[|pat|..], pat, rep)
    else [s[0]] + ReplaceAll(s[1..], pat, rep)
  }

  /** When the only occurrence of `pat` in `base + pat` is the final one,
      replacing removes exactly that suffix. */
  lemma {:induction false} ReplaceFinalOccurrence(base: string, pat: string, rep: string)
    requires pat != []
    requires forall i :: 0 <= i < |base| ==> !OccursAt(base + pat, pat, i)
    ensures ReplaceAll(base + pat, pat, rep) == base + rep
    decreases |base|
  {
    var s := base + pat;
    if base == [] {
      assert s == pat && s[|pat|..] == [];
    } else {
      assert !OccursAt(s, pat, 0);
      assert s[1..] == base[1..] + pat;
      forall i | 0 <= i < |base[1..]| ensures !OccursAt(base[1..] + pat, pat, i) {
        assert !OccursAt(s, pat, i + 1);
        assert s[1..][i..i + |pat|] == s[i + 1..i + 1 + |pat|];
      }
      ReplaceFinalOccurrence(base[1..], pat, rep);
      assert [base[0]] + (base[1..] + rep) == base + rep;
    }
  }

  /** Replacing a one-character pattern by a one-character replacement maps
      each character on its own: the length stays and every other character
      is kept. */
  lemma {:induction false} ReplaceChar(s: string, a: char, b: char)
    ensures |ReplaceAll(s, [a], [b])| == |s|
    ensures forall i :: 0 <= i < |s| ==>
      ReplaceAll(s, [a], [b])[i] == (if s[i] == a then b else s[i])
    decreases |s|
  {
    if s != [] {
      ReplaceChar(s[1..], a, b);
      var r := ReplaceAll(s, [a], [b]);
      assert r == [if s[0] == a then b else s[0]] + ReplaceAll(s[1..], [a], [b]);
    }
  }

  /** The last component of a POSIX path: what follows the last '/'
      (`os.path.split(path)[-1]`). */
  function Basename(path: string): (r: string)
    ensures '/' !in r
    ensures |r| <= |path| && r == path[|path| - |r|..]
    ensures |r| < |path| ==> path[|path| - |r| - 1] == '/'
    decreases |path|
  {
    if path == [] then []
    else if path[|path| - 1] == '/' then []
    else
      var init := path[..|path| - 1];
      var b := Basename(init);
      var r := b + [path[|path| - 1]];
      assert path == init + [path[|path| - 1]];
      assert path[|path| - |r|..] == init[|init| - |b|..] + [path[|path| - 1]];
      assert |r| < |path| ==> |b| < |init| && path[|init| - |b| - 1] == init[|init| - |b| - 1];
      r
  }

  lemma {:induction false} BasenameAfterSlash(dir: string, name: string)
    requires dir == [] || dir[|dir| - 1] == '/'
    requires '/' !in name
    ensures Basename(dir + name) == name
    decreases |name|
  {
    if name == [] {
      assert dir + name == dir;
    } else {
      var p := dir + name;
      assert p[|p| - 1] == name[|name| - 1];
      assert p[..|p| - 1] == dir + name[..|name| - 1];
      BasenameAfterSlash(dir, name[..|name| - 1]);
    }
  }

  predicate IsDigit(c: char) {
    '0' <= c <= '9'
  }

  predicate AllDigits(s: string) {
    forall i :: 0 <= i < |s| ==> IsDigit(s[i])
  }

  function DigitChar(d: nat): char
    requires d < 10
  {
    ('0' as int + d) as char
  }

  /** Python's `str(n)` for a non-negative integer (`"%s" % n`). */
  function DecimalString(n: nat): (r: string)
    ensures r != [] && AllDigits(r)
    ensures |r| > 1 ==> r[0] != '0'
  {
    if n < 10 then [DigitChar(n)]
    else DecimalString(n / 10) + [DigitChar(n % 10)]
  }

  function DigitsValue(s: string): nat
    requires AllDigits(s)
  {
    if s == [] then 0
    else DigitsValue(s[..|s| - 1]) * 10 + (s[|s| - 1] as int - '0' as int)
  }

  /** Reads a decimal numeral back; `None` for an empty or non-numeric string. */
  function ParseDecimal(s: string): Option<nat> {
    if s != [] && AllDigits(s) then Some(DigitsValue(s)) else None
  }

  lemma {:induction false} DecimalRoundTrip(n: nat)
    ensures ParseDecimal(DecimalString(n)) == Some(n)
  {
    var r := DecimalString(n);
    if n < 10 {
      assert r[..|r| - 1] == [];
      assert DigitsValue(r) == n;
    } else {
      DecimalRoundTrip(n / 10);
      assert r[..|r| - 1] == DecimalString(n / 10);
      assert DigitsValue(r) == DigitsValue(DecimalString(n / 10)) * 10 + n % 10;
    }
  }

  datatype Option<T> = None | Some(value: T)

  /** The part of `s` before the first `c`; all of `s` when `c` is absent. */
  function Before(s: string, c: char): (r: string)
    ensures c !in r
    ensures |r| <= |s| && r == s[..|r|]
    ensures c in s ==> |r| < |s| && s[|r|] == c
  {
    if s == [] || s[0] == c then [] else [s[0]] + Before(s[1..], c)
  }

  /** The part of `s` after the first `c`; empty when `c` is absent. */
  function After(s: string, c: char): (r: string)
    ensures c in s ==> s == Before(s, c) + [c] + r
    ensures c !in s ==> r == []
  {
    if s == [] then [] else if s[0] == c then s[1..] else After(s[1..], c)
  }

  lemma {:induction false} SplitAtFirst(x: string, c: char, y: string)
    requires c !in x
    ensures Before(x + [c] + y, c) == x
    ensures After(x + [c] + y, c) == y
    ensures c in x + [c] + y
  {
    var s := x + [c] + y;
    assert s[|x|] == c;
    if x != [] {
      assert s[1..] == x[1..] + [c] + y;
      SplitAtFirst(x[1..], c, y);
    }
  }
}
