/** The Python `str` operations the plugin relies on, over `seq<char>`. */
module Strings {
  import opened Wrappers

  /** The characters for which Python's `str.isspace()` holds, which are
      also those `\s` matches and `str.strip()` removes. */
  const Whitespace: set<char> :=
    {' ', '\t', '\n', '\r', '\U{0B}', '\U{0C}', '\U{1C}', '\U{1D}', '\U{1E}', '\U{1F}',
     '\U{85}', '\U{A0}', '\U{1680}', '\U{2000}', '\U{2001}', '\U{2002}', '\U{2003}',
     '\U{2004}', '\U{2005}', '\U{2006}', '\U{2007}', '\U{2008}', '\U{2009}', '\U{200A}',
     '\U{2028}', '\U{2029}', '\U{202F}', '\U{205F}', '\U{3000}'}

  /** `s.startswith(p)` */
  predicate StartsWith(s: string, p: string) {
    |p| <= |s| && s[..|p|] == p
  }

  /** `s.endswith(p)` */
  predicate EndsWith(s: string, p: string) {
    |p| <= |s| && s[|s| - |p|..] == p
  }

  /** `s.lstrip(chars)`: the suffix left after removing leading characters of `cs`. */
  function LStrip(s: string, cs: set<char>): (r: string)
    ensures |r| <= |s| && r == s[|s| - |r|..]
    ensures r != [] ==> r[0] !in cs
    ensures forall i :: 0 <= i < |s| - |r| ==> s[i] in cs
  {
    if s != [] && s[0] in cs then LStrip(s[1..], cs) else s
  }

  /** `s.rstrip(chars)`: the prefix left after removing trailing characters of `cs`. */
  function RStrip(s: string, cs: set<char>): (r: string)
    ensures |r| <= |s| && r == s[..|r|]
    ensures r != [] ==> r[|r| - 1] !in cs
    ensures forall i :: |r| <= i < |s| ==> s[i] in cs
  {
    if s != [] && s[|s| - 1] in cs then RStrip(s[..|s| - 1], cs) else s
  }

  /** `s.strip(chars)` */
  function Strip(s: string, cs: set<char>): (r: string)
    ensures |r| <= |s|
    ensures r != [] ==> r[0] !in cs && r[|r| - 1] !in cs
  {
    RStrip(LStrip(s, cs), cs)
  }

  /** `s.strip()` */
  function StripWs(s: string): string { Strip(s, Whitespace) }

  /** `s.lstrip()` */
  function LStripWs(s: string): string { LStrip(s, Whitespace) }

  /** `s.rstrip()` */
  function RStripWs(s: string): string { RStrip(s, Whitespace) }

  /** A string whose ends are not in `cs` is left alone by `strip`. */
  lemma StripUnchanged(s: string, cs: set<char>)
    requires s == [] || (s[0] !in cs && s[|s| - 1] !in cs)
    ensures Strip(s, cs) == s
  {
  }

  /** `sub` occurs in `s` at index `i`. */
  predicate OccursAt(s: string, sub: string, i: int) {
    0 <= i && i + |sub| <= |s| && s[i..i + |sub|] == sub
  }

  /** `sub in s` */
  predicate Contains(s: string, sub: string) {
    exists i :: 0 <= i <= |s| && OccursAt(s, sub, i)
  }

  /** The first occurrence of `sub` in `s` at or after `k`. */
  function FindFrom(s: string, sub: string, k: nat): (r: Option<nat>)
    decreases |s| - k
    ensures r.Some? ==> k <= r.value && OccursAt(s, sub, r.value)
    ensures r.Some? ==> forall i :: k <= i < r.value ==> !OccursAt(s, sub, i)
    ensures r.None? ==> forall i :: k <= i ==> !OccursAt(s, sub, i)
  {
    if k + |sub| > |s| then None
    else if s[k..k + |sub|] == sub then Some(k)
    else FindFrom(s, sub, k + 1)
  }

  /** `s.find(sub)`, with `None` for -1. */
  function Find(s: string, sub: string): (r: Option<nat>)
    ensures r.Some? <==> Contains(s, sub)
    ensures r.Some? ==> OccursAt(s, sub, r.value)
    ensures r.Some? ==> forall i :: 0 <= i < r.value ==> !OccursAt(s, sub, i)
  {
    FindFrom(s, sub, 0)
  }

  /** `sub in s[..n]` implies `sub in s`, at the same index. */
  lemma OccursInPrefix(s: string, sub: string, n: nat, i: int)
    requires n <= |s| && OccursAt(s[..n], sub, i)
    ensures OccursAt(s, sub, i)
  {
    assert s[..n][i..i + |sub|] == s[i..i + |sub|];
  }

  /** `s.count(c)` for a single character. */
  function CountChar(s: string, c: char): (r: nat)
    ensures r <= |s|
    ensures r == 0 <==> c !in s
  {
    if s == [] then 0 else CountChar(s[..|s| - 1], c) + (if s[|s| - 1] == c then 1 else 0)
  }

  /** `s.rfind(c)`: the last index holding `c`, or -1. */
  function LastIndexOf(s: string, c: char): (r: int)
    ensures -1 <= r < |s|
    ensures r >= 0 ==> s[r] == c
    ensures forall i :: r < i < |s| ==> s[i] != c
  {
    if s == [] then -1
    else if s[|s| - 1] == c then |s| - 1
    else LastIndexOf(s[..|s| - 1], c)
  }

  /** `s.replace(o, n)`: every non-overlapping occurrence of `o`, left to right. */
  function Replace(s: string, o: string, n: string): (r: string)
    requires o != []
    decreases |s|
  {
    if |s| < |o| then s
    else if s[..|o|] == o then n + Replace(s[|o|..], o, n)
    else [s[0]] + Replace(s[1..], o, n)
  }

  /** Replacing a character by text without it removes every occurrence of it. */
  lemma {:induction false} ReplaceRemovesChar(s: string, c: char, n: string)
    requires c !in n
    ensures c !in Replace(s, [c], n)
  {
    if |s| >= 1 {
      ReplaceRemovesChar(s[1..], c, n);
      if s[..1] != [c] {
        assert s[0] != c;
      }
    }
  }

  /** Replacing leaves characters other than those of `o` and `n` untouched. */
  lemma {:induction false} ReplaceKeepsOtherChars(s: string, o: string, n: string, d: char)
    requires o != [] && d !in o && d !in n
    ensures d in Replace(s, o, n) <==> d in s
  {
    if |s| >= |o| {
      if s[..|o|] == o {
        ReplaceKeepsOtherChars(s[|o|..], o, n, d);
        assert s == s[..|o|] + s[|o|..];
      } else {
        ReplaceKeepsOtherChars(s[1..], o, n, d);
        assert s == [s[0]] + s[1..];
      }
    }
  }

  /** A string without `o` is left unchanged by `replace`. */
  lemma {:induction false} ReplaceAbsent(s: string, o: string, n: string)
    requires o != [] && !Contains(s, o)
    ensures Replace(s, o, n) == s
  {
    if |s| >= |o| {
      assert !OccursAt(s, o, 0);
      if Contains(s[1..], o) {
        var i :| 0 <= i <= |s[1..]| && OccursAt(s[1..], o, i);
        OccursShift(s, o, i);
        assert false;
      }
      ReplaceAbsent(s[1..], o, n);
      assert s == [s[0]] + s[1..];
    }
  }

  /** An occurrence in `s[1..]` is an occurrence in `s`, one index later. */
  lemma OccursShift(s: string, sub: string, i: int)
    requires s != [] && OccursAt(s[1..], sub, i)
    ensures OccursAt(s, sub, i + 1)
  {
    assert s[1..][i..i + |sub|] == s[i + 1..i + 1 + |sub|];
  }

  /** `s.split(sep)` for a non-empty separator. */
  function Split(s: string, sep: string): (r: seq<string>)
    requires sep != []
    decreases |s|
    ensures |r| >= 1
    ensures forall k :: 0 <= k < |r| ==> !Contains(r[k], sep)
  {
    var f := Find(s, sep);
    if f.None? then [s]
    else
      var i := f.value;
      var head := s[..i];
      assert !Contains(head, sep) by {
        forall j | OccursAt(head, sep, j) ensures false {
          OccursInPrefix(s, sep, i, j);
        }
      }
      [head] + Split(s[i + |sep|..], sep)
  }

  /** `sep.join(parts)` */
  function Join(parts: seq<string>, sep: string): (r: string)
    ensures |parts| == 1 ==> r == parts[0]
  {
    if |parts| == 0 then ""
    else if |parts| == 1 then parts[0]
    else parts[0] + sep + Join(parts[1..], sep)
  }

  /** Joining the pieces of a split with the separator gives back the string. */
  lemma {:induction false} JoinSplit(s: string, sep: string)
    requires sep != []
    ensures Join(Split(s, sep), sep) == s
    decreases |s|
  {
    var f := Find(s, sep);
    if f.Some? {
      var i := f.value;
      var rest := s[i + |sep|..];
      var parts := Split(rest, sep);
      JoinSplit(rest, sep);
      SplitFound(s, sep);
      JoinCons(s[..i], parts, sep);
      assert s[i..i + |sep|] == sep;
      SliceThree(s, i, |sep|);
    }
  }

  /** One step of a split: the text before the first separator, then the split
      of what follows it. */
  lemma SplitFound(s: string, sep: string)
    requires sep != [] && Find(s, sep).Some?
    ensures var i := Find(s, sep).value;
      i + |sep| <= |s| && s[i..i + |sep|] == sep &&
      Split(s, sep) == [s[..i]] + Split(s[i + |sep|..], sep)
  {
  }

  /** Joining one more part adds the separator and the part. */
  lemma {:induction false} JoinSnoc(parts: seq<string>, x: string, sep: string)
    requires parts != []
    ensures Join(parts + [x], sep) == Join(parts, sep) + sep + x
    decreases |parts|
  {
    if |parts| == 1 {
      assert (parts + [x])[1..] == [x];
    } else {
      JoinSnoc(parts[1..], x, sep);
      assert (parts + [x])[1..] == parts[1..] + [x];
    }
  }

  lemma Join3(a: string, b: string, c: string, sep: string)
    ensures Join([a, b, c], sep) == a + sep + b + sep + c
  {
    assert [a, b, c][1..] == [b, c];
    assert [b, c][1..] == [c];
  }

  lemma SliceThree(s: string, i: nat, n: nat)
    requires i + n <= |s|
    ensures s == s[..i] + s[i..i + n] + s[i + n..]
  {
  }

  lemma JoinCons(head: string, parts: seq<string>, sep: string)
    requires parts != []
    ensures Join([head] + parts, sep) == head + sep + Join(parts, sep)
  {
    assert ([head] + parts)[1..] == parts;
  }

  /** Splitting at a character: the text before its first occurrence is the
      first piece. */
  lemma SplitAtChar(a: string, c: char, rest: string)
    requires c !in a
    ensures Split(a + [c] + rest, [c]) == [a] + Split(rest, [c])
  {
    var s := a + [c] + rest;
    assert OccursAt(s, [c], |a|) by {
      assert s[|a|..|a| + 1] == [c];
    }
    var f := Find(s, [c]);
    forall i | 0 <= i < |a| ensures !OccursAt(s, [c], i) {
      assert i + 1 <= |s| && s[i..i + 1][0] == a[i];
    }
    assert f.Some?;
    assert f.value == |a|;
    assert s[..|a|] == a && s[|a| + 1..] == rest;
  }

  /** A string without the separator character splits into itself. */
  lemma SplitNoChar(a: string, c: char)
    requires c !in a
    ensures Split(a, [c]) == [a]
  {
    forall i | 0 <= i <= |a| ensures !OccursAt(a, [c], i) {
      if i < |a| {
        assert a[i..i + 1][0] == a[i];
      }
    }
    assert !Contains(a, [c]);
  }

  /** For a one-character separator absent from every part, splitting the
      joined parts gives them back. */
  lemma {:induction false} SplitJoinChar(parts: seq<string>, c: char)
    requires parts != []
    requires forall k :: 0 <= k < |parts| ==> c !in parts[k]
    ensures Split(Join(parts, [c]), [c]) == parts
  {
    if |parts| == 1 {
      SplitNoChar(parts[0], c);
    } else {
      SplitJoinChar(parts[1..], c);
      SplitAtChar(parts[0], c, Join(parts[1..], [c]));
      assert parts == [parts[0]] + parts[1..];
    }
  }

  /** A string without the separator's first character holds no occurrence
      of the separator. */
  lemma NoSepStart(a: string, sep: string, i: int)
    requires sep != [] && sep[0] !in a && 0 <= i < |a|
    ensures !OccursAt(a, sep, i)
  {
    if i + |sep| <= |a| {
      assert a[i..i + |sep|][0] == a[i];
    }
  }

  /** Splitting at a separator whose first character the leading text lacks:
      that text is the first piece. */
  lemma SplitAtSep(a: string, sep: string, rest: string)
    requires sep != [] && sep[0] !in a
    ensures Split(a + sep + rest, sep) == [a] + Split(rest, sep)
  {
    var s := a + sep + rest;
    assert OccursAt(s, sep, |a|) by {
      assert s[|a|..|a| + |sep|] == sep;
    }
    forall i | 0 <= i < |a| ensures !OccursAt(s, sep, i) {
      if i + |sep| <= |s| {
        assert s[i..i + |sep|][0] == a[i];
      }
    }
    var f := Find(s, sep);
    assert f.Some? && f.value == |a|;
    assert s[..|a|] == a && s[|a| + |sep|..] == rest;
  }

  /** A string without the separator's first character splits into itself. */
  lemma SplitNoSep(a: string, sep: string)
    requires sep != [] && sep[0] !in a
    ensures Split(a, sep) == [a]
  {
    forall i | 0 <= i <= |a| ensures !OccursAt(a, sep, i) {
      if i < |a| {
        NoSepStart(a, sep, i);
      }
    }
    assert !Contains(a, sep);
  }

  /** When no part holds the separator's first character, splitting the
      joined parts gives them back. */
  lemma {:induction false} SplitJoinSep(parts: seq<string>, sep: string)
    requires parts != [] && sep != []
    requires forall k :: 0 <= k < |parts| ==> sep[0] !in parts[k]
    ensures Split(Join(parts, sep), sep) == parts
  {
    if |parts| == 1 {
      SplitNoSep(parts[0], sep);
    } else {
      SplitJoinSep(parts[1..], sep);
      SplitAtSep(parts[0], sep, Join(parts[1..], sep));
      assert parts == [parts[0]] + parts[1..];
    }
  }

  /** The characters at which `str.splitlines()` ends a line ("\r\n"
      counts as one break). */
  const LineBreaks: set<char> :=
    {'\n', '\r', '\U{0B}', '\U{0C}', '\U{1C}', '\U{1D}', '\U{1E}', '\U{85}', '\U{2028}', '\U{2029}'}

  predicate NoBreak(line: string) {
    forall j :: 0 <= j < |line| ==> line[j] !in LineBreaks
  }

  /** The index of the first line break in `s`, or `|s|`. */
  function FirstBreak(s: string): (r: nat)
    ensures r <= |s| && NoBreak(s[..r])
    ensures r < |s| ==> s[r] in LineBreaks
  {
    if s == [] || s[0] in LineBreaks then 0
    else
      var r := 1 + FirstBreak(s[1..]);
      assert s[..r] == [s[0]] + s[1..][..r - 1];
      r
  }

  /** `s.splitlines()`: no empty piece after a final line break. */
  function SplitLines(s: string): (r: seq<string>)
    ensures forall k :: 0 <= k < |r| ==> NoBreak(r[k])
    decreases |s|
  {
    if s == [] then []
    else
      var i := FirstBreak(s);
      if i == |s| then [s]
      else
        var skip := if s[i] == '\r' && i + 1 < |s| && s[i + 1] == '\n' then 2 else 1;
        [s[..i]] + SplitLines(s[i + skip..])
  }

  /** The next-line character and the line and paragraph separators end a
      line too. */
  lemma SplitLinesUnicodeBreaks()
    ensures SplitLines("a\U{85}b\U{2028}c\U{2029}") == ["a", "b", "c"]
  {
    var s1, s2, s3 := "a\U{85}b\U{2028}c\U{2029}", "b\U{2028}c\U{2029}", "c\U{2029}";
    FirstBreakAt(s1, 1);
    FirstBreakAt(s2, 1);
    FirstBreakAt(s3, 1);
    assert s1[..1] == "a" && s1[2..] == s2;
    assert s2[..1] == "b" && s2[2..] == s3;
    assert s3[..1] == "c" && s3[2..] == "";
    assert SplitLines(s3) == ["c"] + SplitLines("");
    assert SplitLines(s2) == ["b"] + SplitLines(s3);
    assert SplitLines(s1) == ["a"] + SplitLines(s2);
  }

  /** Lines each ended by "\n". */
  function Terminated(lines: seq<string>): string {
    if lines == [] then "" else lines[0] + "\n" + Terminated(lines[1..])
  }

  /** A line ended by "\n" is split off as it is. */
  lemma SplitLinesCons(a: string, rest: string)
    requires NoBreak(a)
    ensures SplitLines(a + "\n" + rest) == [a] + SplitLines(rest)
  {
    var s := a + "\n" + rest;
    assert s[..|a|] == a;
    assert s[|a|] == '\n';
    assert FirstBreak(s) == |a| by {
      FirstBreakAt(s, |a|);
    }
    assert s[|a| + 1..] == rest;
  }

  lemma FirstBreakAt(s: string, i: nat)
    requires i < |s| && NoBreak(s[..i]) && s[i] in LineBreaks
    ensures FirstBreak(s) == i
  {
  }

  /** Splitting lines that each end in "\n" gives the lines back. */
  lemma {:induction false} SplitLinesTerminated(lines: seq<string>)
    requires forall k :: 0 <= k < |lines| ==> NoBreak(lines[k])
    ensures SplitLines(Terminated(lines)) == lines
  {
    if lines != [] {
      SplitLinesTerminated(lines[1..]);
      SplitLinesCons(lines[0], Terminated(lines[1..]));
    }
  }

  /** Python's `str.isdigit()` on ASCII text. */
  predicate IsDigits(s: string) {
    |s| > 0 && forall i :: 0 <= i < |s| ==> '0' <= s[i] <= '9'
  }

  function DigitValue(c: char): nat
    requires '0' <= c <= '9'
  {
    (c as int) - ('0' as int)
  }

  function DigitChar(d: nat): (c: char)
    requires d < 10
    ensures '0' <= c <= '9' && DigitValue(c) == d
  {
    (('0' as int) + d) as char
  }

  /** The value of a decimal digit string, most significant digit first. */
  function DigitsValue(s: string): nat
    requires forall i :: 0 <= i < |s| ==> '0' <= s[i] <= '9'
  {
    if s == [] then 0 else 10 * DigitsValue(s[..|s| - 1]) + DigitValue(s[|s| - 1])
  }

  /** `str(n)` for a natural number. */
  function NatToString(n: nat): (r: string)
    ensures IsDigits(r)
  {
    if n < 10 then [DigitChar(n)] else NatToString(n / 10) + [DigitChar(n % 10)]
  }

  /** `str(i)` */
  function IntToString(i: int): string {
    if i < 0 then "-" + NatToString(-i) else NatToString(i)
  }

  /** `int(s)` on a string: surrounding whitespace, an optional sign, then digits;
      anything else raises `ValueError`, modelled as `None`. */
  function ParseInt(s: string): (r: Option<int>)
    ensures r.Some? ==> s != []
  {
    var t := StripWs(s);
    if t != [] && (t[0] == '-' || t[0] == '+') then
      if IsDigits(t[1..]) then
        var v: int := DigitsValue(t[1..]);
        Some(if t[0] == '-' then -v else v)
      else None
    else if IsDigits(t) then Some(DigitsValue(t))
    else None
  }

  lemma {:induction false} NatToStringValue(n: nat)
    ensures DigitsValue(NatToString(n)) == n
  {
    if n >= 10 {
      NatToStringValue(n / 10);
      var r := NatToString(n);
      assert r[..|r| - 1] == NatToString(n / 10);
    }
  }

  lemma StripWsUnchanged(s: string)
    requires s != [] && s[0] !in Whitespace && s[|s| - 1] !in Whitespace
    ensures StripWs(s) == s
  {
    StripUnchanged(s, Whitespace);
  }

  /** `int(s)` of a digit string is its decimal value. */
  lemma ParseDigits(s: string)
    requires IsDigits(s)
    ensures ParseInt(s) == Some(DigitsValue(s))
  {
    DigitNotSpace(s[0]);
    DigitNotSpace(s[|s| - 1]);
    StripWsUnchanged(s);
  }

  /** The decimal form of an integer holds no ':'. */
  lemma NoColonInInt(i: int)
    ensures ':' !in IntToString(i)
  {
    var d := NatToString(if i < 0 then -i else i);
    assert forall k :: 0 <= k < |d| ==> d[k] != ':';
  }

  /** `int(str(i)) == i` */
  lemma ParseIntToString(i: int)
    ensures ParseInt(IntToString(i)) == Some(i)
  {
    var s := IntToString(i);
    var digits := NatToString(if i < 0 then -i else i);
    NatToStringValue(if i < 0 then -i else i);
    assert s[|s| - 1] == digits[|digits| - 1];
    DigitNotSpace(digits[0]);
    DigitNotSpace(digits[|digits| - 1]);
    StripUnchanged(s, Whitespace);
    assert StripWs(s) == s;
    if i < 0 {
      assert s[1..] == digits;
    } else {
      assert s[0] != '-' && s[0] != '+';
    }
  }

  lemma DigitNotSpace(c: char)
    requires '0' <= c <= '9'
    ensures c !in Whitespace
  {
  }

  /** No visible ASCII character is whitespace. */
  lemma VisibleNotSpace(c: char)
    requires '!' <= c <= '~'
    ensures c !in Whitespace
  {
  }

  /** Python's clamping of a slice bound against a length. */
  function ClampIndex(i: int, n: nat): (r: nat)
    ensures r <= n
    ensures 0 <= i <= n ==> r == i
    ensures -(n as int) <= i < 0 ==> r == n + i
  {
    if i < 0 then (if i + n < 0 then 0 else i + n) else if i > n then n else i
  }

  /** Python's `s[i:j]` with negative and out-of-range bounds. */
  function Slice<T>(s: seq<T>, i: int, j: int): (r: seq<T>)
    ensures |r| <= |s|
    ensures 0 <= i <= j <= |s| ==> r == s[i..j]
    ensures ClampIndex(j, |s|) <= ClampIndex(i, |s|) ==> r == []
  {
    var a := ClampIndex(i, |s|);
    var b := ClampIndex(j, |s|);
    if a < b then s[a..b] else []
  }
}
