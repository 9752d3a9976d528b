/** How a url-map test case derives the names of its GCP resources from its
    class name and the file that defines it: the kebab-case form of the class
    name, the short module name, the path-matcher name and the host name the
    test client is pointed at. */
module Naming {
  import opened Strings

  /** File-name suffix of url-map test modules. */
  const TestFileSuffix: string := "_test.py"

  /** The delimiter the framework passes to the camel-case splitter. */
  const Dash: char := '-'

  predicate IsUpper(c: char) {
    'A' <= c <= 'Z'
  }

  predicate IsLowerAlpha(c: char) {
    'a' <= c <= 'z'
  }

  predicate IsAlnum(c: char) {
    IsUpper(c) || IsLowerAlpha(c) || IsDigit(c)
  }

  function Lower(c: char): (l: char)
    ensures IsUpper(c) ==> IsLowerAlpha(l)
    ensures !IsUpper(c) ==> l == c
  {
    if IsUpper(c) then (c as int + 32) as char else c
  }

  function Upper(c: char): (u: char)
    ensures IsLowerAlpha(c) ==> IsUpper(u)
    ensures !IsLowerAlpha(c) ==> u == c
  {
    if IsLowerAlpha(c) then (c as int - 32) as char else c
  }

  /** The joined comprehension of `_split_camel`: every upper-case character
      becomes the delimiter followed by its lower-case form, every other
      character is kept. */
  function Decamel(s: string, d: char): string {
    if s == [] then []
    else (if IsUpper(s[0]) then [d, Lower(s[0])] else [s[0]]) + Decamel(s[1..], d)
  }

  /** `str.lstrip` with a one-character argument: drops the leading run of
      `d`.  The result is the suffix of `s` that remains after a prefix made
      only of `d`, and it does not start with `d`. */
  function LStrip(s: string, d: char): (r: string)
    ensures |r| <= |s| && r == s[|s| - |r|..]
    ensures forall i :: 0 <= i < |s| - |r| ==> s[i] == d
    ensures r != [] ==> r[0] != d
  {
    if s != [] && s[0] == d then LStrip(s[1..], d) else s
  }

  /** `_split_camel(s, delimiter)`. */
  function SplitCamel(s: string, d: char): string {
    LStrip(Decamel(s, d), d)
  }

  /** Reference inverse of `SplitCamel`: every delimiter followed by a
      character becomes that character in upper case. */
  function Recamel(t: string, d: char): string {
    if |t| >= 2 && t[0] == d then [Upper(t[1])] + Recamel(t[2..], d)
    else if t == [] then []
    else [t[0]] + Recamel(t[1..], d)
  }

  /** A character that is neither the delimiter nor a lower-case letter
      appears in `Decamel(s, d)` only if it appears in `s`. */
  lemma {:induction false} DecamelAvoids(s: string, d: char, c: char)
    requires c != d && !IsLowerAlpha(c) && c !in s
    ensures c !in Decamel(s, d)
  {
    if s != [] {
      DecamelAvoids(s[1..], d, c);
      assert s[0] != c;
    }
  }

  /** No upper-case letter survives `Decamel` unless the delimiter is one. */
  lemma {:induction false} DecamelNoUpper(s: string, d: char)
    requires !IsUpper(d)
    ensures forall i :: 0 <= i < |Decamel(s, d)| ==> !IsUpper(Decamel(s, d)[i])
  {
    if s != [] {
      DecamelNoUpper(s[1..], d);
      var head := if IsUpper(s[0]) then [d, Lower(s[0])] else [s[0]];
      assert Decamel(s, d) == head + Decamel(s[1..], d);
    }
  }

  /** An ASCII alphanumeric name splits into GCP name characters only. */
  lemma {:induction false} DecamelGcpChars(s: string)
    requires forall i :: 0 <= i < |s| ==> IsAlnum(s[i])
    ensures forall i :: 0 <= i < |Decamel(s, Dash)| ==> IsGcpNameChar(Decamel(s, Dash)[i])
  {
    if s != [] {
      DecamelGcpChars(s[1..]);
      var head := if IsUpper(s[0]) then [Dash, Lower(s[0])] else [s[0]];
      assert IsAlnum(s[0]);
      assert Decamel(s, Dash) == head + Decamel(s[1..], Dash);
    }
  }

  /** `_split_camel` never returns a name that starts with the delimiter and,
      for a delimiter that is not an upper-case letter, returns no upper-case
      letter. */
  lemma SplitCamelIsKebab(s: string, d: char)
    requires !IsUpper(d)
    ensures SplitCamel(s, d) != [] ==> SplitCamel(s, d)[0] != d
    ensures forall i :: 0 <= i < |SplitCamel(s, d)| ==> !IsUpper(SplitCamel(s, d)[i])
  {
    DecamelNoUpper(s, d);
    var t := Decamel(s, d);
    var r := SplitCamel(s, d);
    forall i | 0 <= i < |r| ensures !IsUpper(r[i]) {
      assert r[i] == t[|t| - |r| + i];
    }
  }

  /** A name without upper-case letters goes through `Decamel` unchanged. */
  lemma {:induction false} DecamelKeepsLowercase(s: string, d: char)
    requires forall i :: 0 <= i < |s| ==> !IsUpper(s[i])
    ensures Decamel(s, d) == s
  {
    if s != [] {
      DecamelKeepsLowercase(s[1..], d);
    }
  }

  /** Splitting an already split name changes nothing. */
  lemma SplitCamelIdempotent(s: string, d: char)
    requires !IsUpper(d)
    ensures SplitCamel(SplitCamel(s, d), d) == SplitCamel(s, d)
  {
    var r := SplitCamel(s, d);
    SplitCamelIsKebab(s, d);
    DecamelKeepsLowercase(r, d);
  }

  /** `Recamel` undoes `Decamel` for names that do not contain the delimiter. */
  lemma {:induction false} RecamelDecamel(s: string, d: char)
    requires d !in s
    ensures Recamel(Decamel(s, d), d) == s
  {
    if s != [] {
      var rest := Decamel(s[1..], d);
      RecamelDecamel(s[1..], d);
      if IsUpper(s[0]) {
        assert Decamel(s, d) == [d, Lower(s[0])] + rest;
        assert (Decamel(s, d))[2..] == rest;
      } else {
        assert Decamel(s, d) == [s[0]] + rest;
        assert (Decamel(s, d))[1..] == rest;
      }
    }
  }

  /** Round trip: a CamelCase class name (starting with an upper-case letter
      and free of the delimiter) is recovered from its kebab-case form by
      putting the stripped leading delimiter back and upper-casing after each
      delimiter. */
  lemma SplitCamelRoundTrip(s: string, d: char)
    requires s != [] && IsUpper(s[0])
    requires d !in s && !IsLowerAlpha(d)
    ensures Recamel([d] + SplitCamel(s, d), d) == s
  {
    var t := Decamel(s, d);
    assert t == [d, Lower(s[0])] + Decamel(s[1..], d);
    assert LStrip(t, d) == LStrip(t[1..], d);
    assert t[1..][0] == Lower(s[0]) != d;
    assert [d] + SplitCamel(s, d) == t;
    RecamelDecamel(s, d);
  }

  lemma {:induction false} DecamelAppend(a: string, b: string, d: char)
    ensures Decamel(a + b, d) == Decamel(a, d) + Decamel(b, d)
  {
    if a == [] {
      assert a + b == b;
    } else {
      assert (a + b)[0] == a[0];
      assert (a + b)[1..] == a[1..] + b;
      DecamelAppend(a[1..], b, d);
    }
  }

  /** A capitalised word becomes the delimiter and the word in lower case. */
  lemma DecamelWord(c: char, w: string, d: char)
    requires IsUpper(c)
    requires forall i :: 0 <= i < |w| ==> !IsUpper(w[i])
    ensures Decamel([c] + w, d) == [d, Lower(c)] + w
  {
    DecamelAppend([c], w, d);
    DecamelKeepsLowercase(w, d);
  }

  lemma LStripOne(t: string, d: char)
    requires t != [] && t[0] == d && (|t| < 2 || t[1] != d)
    ensures LStrip(t, d) == t[1..]
  {
  }

  /** A class name made of two capitalised words, such as `TestRouting`,
      becomes the two words in lower case joined by the delimiter. */
  lemma SplitCamelTwoWords(c1: char, w1: string, c2: char, w2: string)
    requires IsUpper(c1) && IsUpper(c2)
    requires forall i :: 0 <= i < |w1| ==> !IsUpper(w1[i])
    requires forall i :: 0 <= i < |w2| ==> !IsUpper(w2[i])
    ensures SplitCamel([c1] + w1 + [c2] + w2, Dash) == [Lower(c1)] + w1 + [Dash, Lower(c2)] + w2
  {
    var a, b := [c1] + w1, [c2] + w2;
    assert [c1] + w1 + [c2] + w2 == a + b;
    DecamelWord(c1, w1, Dash);
    DecamelWord(c2, w2, Dash);
    DecamelAppend(a, b, Dash);
    var t := Decamel(a + b, Dash);
    assert t == [Dash, Lower(c1)] + w1 + [Dash, Lower(c2)] + w2;
    LStripOne(t, Dash);
    assert t[1..] == [Lower(c1)] + w1 + [Dash, Lower(c2)] + w2;
  }

  /** `short_module_name` as the metaclass computes it from the defining
      module's file path. */
  function ShortModuleName(path: string): string {
    var file := Basename(path);
    var stem := if EndsWith(file, TestFileSuffix) then ReplaceAll(file, TestFileSuffix, "") else file;
    ReplaceAll(stem, "_", "-")
  }

  /** The character map the second `replace` applies. */
  function Dashed(s: string): (r: string)
    ensures |r| == |s|
    ensures forall i :: 0 <= i < |s| ==> r[i] == (if s[i] == '_' then '-' else s[i])
  {
    if s == [] then [] else [if s[0] == '_' then '-' else s[0]] + Dashed(s[1..])
  }

  /** A short module name never contains an underscore; for a file that does
      not end in `_test.py` it is the last path component with every '_'
      turned into '-'. */
  lemma ShortModuleNameTokens(path: string)
    ensures '_' !in ShortModuleName(path)
    ensures !EndsWith(Basename(path), TestFileSuffix) ==>
      ShortModuleName(path) == Dashed(Basename(path))
  {
    var file := Basename(path);
    var stem := if EndsWith(file, TestFileSuffix) then ReplaceAll(file, TestFileSuffix, "") else file;
    ReplaceChar(stem, '_', '-');
    assert ShortModuleName(path) == Dashed(stem);
  }

  /** `"_test.py"` cannot overlap itself, so in `base + "_test.py"` with no
      earlier occurrence the suffix is the only occurrence. */
  lemma SuffixOnlyAtEnd(base: string)
    requires forall i :: 0 <= i < |base| ==> !OccursAt(base, TestFileSuffix, i)
    ensures forall i :: 0 <= i < |base| ==> !OccursAt(base + TestFileSuffix, TestFileSuffix, i)
  {
    var s := base + TestFileSuffix;
    forall i | 0 <= i < |base| ensures !OccursAt(s, TestFileSuffix, i) {
      if i + |TestFileSuffix| <= |base| {
        assert s[i..i + 8] == base[i..i + 8];
        assert !OccursAt(base, TestFileSuffix, i);
      } else if i + |TestFileSuffix| <= |s| {
        var k := |base| - i;
        assert s[i..i + 8][k] == s[|base|] == '_';
        assert TestFileSuffix[k] != '_';
      }
    }
  }

  lemma RemoveTestSuffix(stem: string)
    requires forall i :: 0 <= i < |stem| ==> !OccursAt(stem, TestFileSuffix, i)
    ensures EndsWith(stem + TestFileSuffix, TestFileSuffix)
    ensures ReplaceAll(stem + TestFileSuffix, TestFileSuffix, "") == stem
  {
    var file := stem + TestFileSuffix;
    assert file[|file| - 8..] == TestFileSuffix;
    SuffixOnlyAtEnd(stem);
    ReplaceFinalOccurrence(stem, TestFileSuffix, "");
    assert stem + "" == stem;
  }

  /** The second `replace` of `short_module_name` is the character map `Dashed`. */
  lemma DashedIsReplace(s: string)
    ensures ReplaceAll(s, "_", "-") == Dashed(s)
  {
    ReplaceChar(s, '_', '-');
    assert "_" == ['_'] && "-" == ['-'];
  }

  lemma BasenameOfTestFile(dir: string, stem: string)
    requires dir == [] || dir[|dir| - 1] == '/'
    requires '/' !in stem
    ensures Basename(dir + stem + TestFileSuffix) == stem + TestFileSuffix
  {
    var file := stem + TestFileSuffix;
    assert '/' !in TestFileSuffix;
    assert dir + stem + TestFileSuffix == dir + file;
    BasenameAfterSlash(dir, file);
  }

  /** The usual case: a test module `<dir>/<stem>_test.py` whose stem has no
      earlier `_test.py` gets the stem, with '_' turned into '-', as its
      short name. */
  lemma ShortModuleNameOfTestFile(dir: string, stem: string)
    requires dir == [] || dir[|dir| - 1] == '/'
    requires '/' !in stem
    requires forall i :: 0 <= i < |stem| ==> !OccursAt(stem, TestFileSuffix, i)
    ensures ShortModuleName(dir + stem + TestFileSuffix) == Dashed(stem)
  {
    BasenameOfTestFile(dir, stem);
    RemoveTestSuffix(stem);
    DashedIsReplace(stem);
  }

  /** `path_matcher_name()`. */
  function PathMatcherName(shortModuleName: string, className: string): string {
    shortModuleName + "-" + SplitCamel(className, Dash) + "-pm"
  }

  /** `hostname()`, with the resource manager's server xDS port. */
  function Hostname(shortModuleName: string, className: string, port: nat): string {
    shortModuleName + "." + SplitCamel(className, Dash) + ":" + DecimalString(port)
  }

  predicate IsGcpNameChar(c: char) {
    c == '-' || IsLowerAlpha(c) || IsDigit(c)
  }

  /** Full match of `(?:[a-z](?:[-a-z0-9]{0,61}[a-z0-9])?)`, the form GCP
      demands of a path-matcher name. */
  predicate IsGcpName(r: string) {
    1 <= |r| <= 63 && IsLowerAlpha(r[0]) &&
    (IsLowerAlpha(r[|r| - 1]) || IsDigit(r[|r| - 1])) &&
    forall i :: 0 <= i < |r| ==> IsGcpNameChar(r[i])
  }

  /** The path-matcher name has the GCP form whenever the short module name
      starts with a lower-case letter and uses only GCP name characters, the
      class name is ASCII letters and digits, and the whole fits in 63
      characters. */
  lemma PathMatcherNameIsGcpName(shortModuleName: string, className: string)
    requires shortModuleName != [] && IsLowerAlpha(shortModuleName[0])
    requires forall i :: 0 <= i < |shortModuleName| ==> IsGcpNameChar(shortModuleName[i])
    requires forall i :: 0 <= i < |className| ==> IsAlnum(className[i])
    requires |PathMatcherName(shortModuleName, className)| <= 63
    ensures IsGcpName(PathMatcherName(shortModuleName, className))
  {
    var t := Decamel(className, Dash);
    var k := SplitCamel(className, Dash);
    DecamelGcpChars(className);
    forall i | 0 <= i < |k| ensures IsGcpNameChar(k[i]) {
      assert k[i] == t[|t| - |k| + i];
    }
    var r := PathMatcherName(shortModuleName, className);
    assert r == shortModuleName + "-" + k + "-pm";
    forall i | 0 <= i < |r| ensures IsGcpNameChar(r[i]) {
      if i < |shortModuleName| {
        assert r[i] == shortModuleName[i];
      } else if i == |shortModuleName| {
        assert r[i] == '-';
      } else if i < |shortModuleName| + 1 + |k| {
        assert r[i] == k[i - |shortModuleName| - 1];
      } else {
        assert r[i] in "-pm";
      }
    }
    assert r[|r| - 1] == 'm';
  }

  /** Reads a host name back into its module part, kebab-case class part and
      port. */
  function DecodeHostname(h: string): Option<(string, string, nat)> {
    var rest := After(h, '.');
    var port := ParseDecimal(After(rest, ':'));
    if '.' in h && ':' in rest && port.Some? then Some((Before(h, '.'), Before(rest, ':'), port.value))
    else None
  }

  /** Round trip: the host name of a class determines its short module name,
      its kebab-case class name and the port, provided the module name holds
      no '.' or ':' and the class name no ':'. */
  lemma HostnameDecodes(shortModuleName: string, className: string, port: nat)
    requires '.' !in shortModuleName && ':' !in shortModuleName
    requires ':' !in className
    ensures DecodeHostname(Hostname(shortModuleName, className, port)) ==
      Some((shortModuleName, SplitCamel(className, Dash), port))
  {
    var k := SplitCamel(className, Dash);
    var digits := DecimalString(port);
    DecamelAvoids(className, Dash, ':');
    assert ':' !in k by {
      var t := Decamel(className, Dash);
      forall i | 0 <= i < |k| ensures k[i] != ':' {
        assert k[i] == t[|t| - |k| + i];
      }
    }
    var rest := k + ":" + digits;
    var h := Hostname(shortModuleName, className, port);
    assert h == shortModuleName + ['.'] + rest;
    SplitAtFirst(shortModuleName, '.', rest);
    assert rest == k + [':'] + digits;
    SplitAtFirst(k, ':', digits);
    DecimalRoundTrip(port);
  }
}
