/** plugin/clang_bin_complete.py: completions read from the
    `COMPLETION: name : content` lines the clang binary prints, with the
    `<#...#>`, `[#...#]` and `{#...#}` groups of the content rewritten, and
    the flags the binary is called with. Running the binary is left out:
    its output lines are a parameter. */
module ClangBinComplete {
  import opened Wrappers
  import opened Strings
  import opened PyPath
  import opened FolderSearch
  import opened Regex
  import opened Collections
  import LibClang

  // ---------------------------------------------------------------------------
  // The line pattern `COMPLETION:\s(?P<name>.*)\s:\s(?P<content>.*)`

  const CompletionTag: string := "COMPLETION:"

  /** The groups of one matching line. */
  datatype LineMatch = LineMatch(name: string, content: string)

  /** `\s:\s` at index `q`. */
  predicate SepAt(s: string, q: nat) {
    q + 3 <= |s| && s[q] in Whitespace && s[q + 1] == ':' && s[q + 2] in Whitespace
  }

  /** Where a `.*` starting at `i` stops: the next newline, or the end. */
  function LineEnd(s: string, i: nat): (e: nat)
    requires i <= |s|
    ensures i <= e <= |s| && (e < |s| ==> s[e] == '\n')
    ensures forall k :: i <= k < e ==> s[k] != '\n'
  {
    i + RunLength(s, i, NotNewline)
  }

  /** The last index from `lo` to `q` where `\s:\s` stands: the greedy name
      group gives back characters only until the separator fits. */
  function LastSep(s: string, lo: nat, q: nat): (r: Option<nat>)
    ensures r.Some? ==> lo <= r.value <= q && SepAt(s, r.value) && forall k :: r.value < k <= q ==> !SepAt(s, k)
    ensures r.None? ==> forall k :: lo <= k <= q ==> !SepAt(s, k)
    decreases q
  {
    if q < lo then None
    else if SepAt(s, q) then Some(q)
    else if q == lo then None
    else LastSep(s, lo, q - 1)
  }

  /** A separator with none after it up to `e` is the one the name stops at. */
  lemma {:induction false} LastSepIs(s: string, lo: nat, q: nat, e: nat)
    requires lo <= q <= e && SepAt(s, q) && forall k :: q < k <= e ==> !SepAt(s, k)
    ensures LastSep(s, lo, e) == Some(q)
    decreases e
  {
    if q < e {
      assert !SepAt(s, e);
      LastSepIs(s, lo, q, e - 1);
    }
  }

  /** The match of the line pattern that starts at index `p`, if any. */
  function LineMatchAt(s: string, p: nat): (r: Option<LineMatch>)
  {
    var lo := p + |CompletionTag| + 1;
    if !OccursAt(s, CompletionTag, p) || lo > |s| || s[lo - 1] !in Whitespace then None
    else
      var q := LastSep(s, lo, LineEnd(s, lo));
      if q.None? then None
      else Some(LineMatch(s[lo..q.value], s[q.value + 3..LineEnd(s, q.value + 3)]))
  }

  /** `compl_regex.search(line)`: the leftmost match. */
  function ScanLine(s: string): Option<LineMatch> {
    FirstMatch(MatchesAt(s), 0, |s|)
  }

  /** The pattern tried at each index of `s`. */
  function MatchesAt(s: string): nat -> Option<LineMatch> {
    (p: nat) => LineMatchAt(s, p)
  }

  /** `m` is the match at `p` with its separator at `q`: the tag at `p`, a
      whitespace, the name up to the LAST `\s:\s` of the line and the
      content from there to the end of the line; neither group holds a
      newline. */
  predicate MatchIs(s: string, p: nat, q: nat, m: LineMatch) {
    OccursAt(s, CompletionTag, p) && SepAt(s, q) && p + 12 <= q && s[p + 11] in Whitespace &&
    m.name == s[p + 12..q] && m.content == s[q + 3..LineEnd(s, q + 3)] &&
    '\n' !in m.name && '\n' !in m.content &&
    forall k :: q < k <= LineEnd(s, p + 12) ==> !SepAt(s, k)
  }

  /** A match at `p` has that shape. */
  lemma {:induction false} LineMatchAtSound(s: string, p: nat)
    requires LineMatchAt(s, p).Some?
    ensures exists q: nat :: MatchIs(s, p, q, LineMatchAt(s, p).value)
  {
    var lo := p + 12;
    var e := LineEnd(s, lo);
    var q := LastSep(s, lo, e).value;
    var m := LineMatchAt(s, p).value;
    assert m.name == s[lo..q];
    assert '\n' !in m.name by {
      forall k | 0 <= k < |m.name| ensures m.name[k] != '\n' {
        assert m.name[k] == s[lo + k];
      }
    }
    assert '\n' !in m.content by {
      forall k | 0 <= k < |m.content| ensures m.content[k] != '\n' {
        assert m.content[k] == s[q + 3 + k];
      }
    }
    assert MatchIs(s, p, q, m);
  }

  /** `re.search` finds the match at the first index where one starts, and
      it has the shape of `MatchIs`. */
  lemma {:induction false} ScanLineSound(s: string)
    requires ScanLine(s).Some?
    ensures exists p: nat, q: nat :: MatchIs(s, p, q, ScanLine(s).value) && forall k :: 0 <= k < p ==> LineMatchAt(s, k).None?
  {
    var m := MatchesAt(s);
    FirstMatchFound(m, 0, |s|);
    var p: nat :| 0 <= p <= |s| && m(p) == FirstMatch(m, 0, |s|) && forall k :: 0 <= k < p ==> m(k).None?;
    LineMatchAtSound(s, p);
    var q: nat :| MatchIs(s, p, q, LineMatchAt(s, p).value);
    forall k | 0 <= k < p
      ensures LineMatchAt(s, k).None?
    {
      assert m(k).None?;
    }
    assert MatchIs(s, p, q, ScanLine(s).value);
  }

  /** A line with nothing before its tag, whose name holds no newline and
      whose content holds neither a newline nor a colon, gives that name and
      that content. */
  lemma {:induction false} ScanSimpleLine(name: string, content: string)
    requires '\n' !in name && '\n' !in content && ':' !in content
    ensures ScanLine(CompletionTag + " " + name + " : " + content) == Some(LineMatch(name, content))
  {
    var s := CompletionTag + " " + name + " : " + content;
    var lo := 12;
    var q := 12 + |name|;
    assert |s| == q + 3 + |content|;
    assert s[..11] == CompletionTag;
    assert s[11] == ' ';
    assert s[lo..q] == name;
    assert s[q] == ' ' && s[q + 1] == ':' && s[q + 2] == ' ';
    assert s[q + 3..] == content;
    assert forall k :: q + 3 <= k < |s| ==> s[k] == content[k - q - 3];
    assert forall k :: lo <= k < q ==> s[k] == name[k - lo];
    RunLengthExact(s, lo, |s| - lo, NotNewline);
    RunLengthExact(s, q + 3, |s| - q - 3, NotNewline);
    assert LineEnd(s, lo) == |s| && LineEnd(s, q + 3) == |s|;
    forall k | q < k <= |s|
      ensures !SepAt(s, k)
    {
      if k + 3 <= |s| && k > q + 1 {
        assert s[k + 1] == content[k + 1 - q - 3];
      }
    }
    LastSepIs(s, lo, q, |s|);
    assert |CompletionTag| == 11;
    assert OccursAt(s, CompletionTag, 0);
    assert ' ' in Whitespace;
    assert s[q + 3..|s|] == content;
    assert LineMatchAt(s, 0) == Some(LineMatch(name, content));
    FirstMatchAt(MatchesAt(s), 0, 0, |s|);
  }

  // ---------------------------------------------------------------------------
  // The content patterns

  /** `[\w\s\*\&\<\>:,\(\)\$\{\}]`: the characters of a group. */
  predicate IsParamChar(c: char) {
    IsWordChar(c) || c in Whitespace || c in {'*', '&', '<', '>', ':', ',', '(', ')', '$', '{', '}'}
  }

  /** The group of a `<#...#>` or `[#...#]` match. */
  datatype Token = Param(text: string) | Type(text: string)

  /** A match and how many characters it spans. */
  datatype TokenMatch = TokenMatch(token: Token, len: nat)

  /** A group matched by a delimited pattern, and the length of the match. */
  datatype Group = Group(text: string, len: nat)

  /** `open`, '#', a run of group characters, '#' and `close` at index `i`
      of `s`: the run and the length of the match. */
  function Delimited(s: string, i: nat, open: char, close: char): (r: Option<Group>)
    ensures r.Some? ==> 5 <= r.value.len && i + r.value.len <= |s|
  {
    if i + 2 > |s| || s[i] != open || s[i + 1] != '#' then None
    else
      var n := RunLength(s, i + 2, IsParamChar);
      if n > 0 && i + n + 4 <= |s| && s[i + n + 2] == '#' && s[i + n + 3] == close then Some(Group(s[i + 2..i + n + 2], n + 4)) else None
  }

  /** A delimited match is `open`, '#', its group, '#' and `close`, and the
      group is the longest run of group characters there and not empty. */
  lemma {:induction false} DelimitedShape(s: string, i: nat, open: char, close: char)
    requires Delimited(s, i, open, close).Some?
    ensures var g := Delimited(s, i, open, close).value;
      s[i..i + g.len] == [open, '#'] + g.text + ['#', close] && g.text != [] &&
      (forall k :: 0 <= k < |g.text| ==> IsParamChar(g.text[k])) && !IsParamChar(s[i + g.len - 2])
  {
    var g := Delimited(s, i, open, close).value;
    assert s[i..i + g.len] == [open, '#'] + g.text + ['#', close];
  }

  /** A match of `\<#(?P<param>...+)#\>|\[#(?P<type>...+)#\]` at index `i`
      of `s`. */
  function TokenAt(s: string, i: nat): (r: Option<TokenMatch>)
    ensures r.Some? ==> 5 <= r.value.len && i + r.value.len <= |s|
  {
    var p := Delimited(s, i, '<', '>');
    if p.Some? then Some(TokenMatch(Param(p.value.text), p.value.len))
    else
      var t := Delimited(s, i, '[', ']');
      if t.Some? then Some(TokenMatch(Type(t.value.text), t.value.len)) else None
  }

  /** `tokenize_params` after the counter went up to `n`. */
  function Tokenize(t: Token, n: nat): string {
    if t.Param? then LibClang.PlaceholderText(n, t.text) else ""
  }

  /** `make_pretty` */
  function MakePretty(t: Token): string {
    if t.Param? then t.text else t.text + " "
  }

  /** The matches `re.sub` finds from index `i` on, left to right. */
  function TokensFrom(s: string, i: nat): seq<Token>
    decreases |s| - i
  {
    if i >= |s| then []
    else
      var m := TokenAt(s, i);
      if m.Some? then [m.value.token] + TokensFrom(s, i + m.value.len) else TokensFrom(s, i + 1)
  }

  /** A rewritten text and the counter afterwards. */
  datatype Rewritten = Rewritten(text: string, count: nat)

  /** The text of `re.sub(compl_content_regex, tokenize_params, s[i..])`
      with the counter at `n`. */
  function TokenizedText(s: string, i: nat, n: nat): string
    decreases |s| - i
  {
    if i >= |s| then ""
    else
      var m := TokenAt(s, i);
      if m.Some? then Tokenize(m.value.token, n + 1) + TokenizedText(s, i + m.value.len, n + 1)
      else [s[i]] + TokenizedText(s, i + 1, n)
  }

  /** The counter after `re.sub(compl_content_regex, tokenize_params, s[i..])`
      when it was at `n`. */
  function PlaceholdersAfter(s: string, i: nat, n: nat): nat
    decreases |s| - i
  {
    if i >= |s| then n
    else
      var m := TokenAt(s, i);
      if m.Some? then PlaceholdersAfter(s, i + m.value.len, n + 1) else PlaceholdersAfter(s, i + 1, n)
  }

  /** `re.sub(compl_content_regex, tokenize_params, s)` with the counter at
      `n`: the text and the counter afterwards. */
  function Tokenized(s: string, n: nat): Rewritten {
    Rewritten(TokenizedText(s, 0, n), PlaceholdersAfter(s, 0, n))
  }

  /** `re.sub(compl_content_regex, make_pretty, s[i..])` */
  function PrettyFrom(s: string, i: nat): string
    decreases |s| - i
  {
    if i >= |s| then ""
    else
      var m := TokenAt(s, i);
      if m.Some? then MakePretty(m.value.token) + PrettyFrom(s, i + m.value.len) else [s[i]] + PrettyFrom(s, i + 1)
  }

  /** `re.sub(compl_content_regex, make_pretty, s)` */
  function Pretty(s: string): string {
    PrettyFrom(s, 0)
  }

  /** `re.sub(opts_regex, '', s[i..])`: every `{#...#}` removed. */
  function RemoveOptsFrom(s: string, i: nat): string
    decreases |s| - i
  {
    if i >= |s| then ""
    else
      var m := Delimited(s, i, '{', '}');
      if m.Some? then RemoveOptsFrom(s, i + m.value.len) else [s[i]] + RemoveOptsFrom(s, i + 1)
  }

  /** `re.sub(opts_regex, '', s)` */
  function RemoveOpts(s: string): string {
    RemoveOptsFrom(s, 0)
  }

  /** The counter goes up once for every `<#...#>` and every `[#...#]`. */
  lemma {:induction false} TokenizedCount(s: string, i: nat, n: nat)
    ensures PlaceholdersAfter(s, i, n) == n + |TokensFrom(s, i)|
    decreases |s| - i
  {
    if i < |s| {
      var m := TokenAt(s, i);
      if m.Some? {
        TokenizedCount(s, i + m.value.len, n + 1);
      } else {
        TokenizedCount(s, i + 1, n);
      }
    }
  }

  /** Text without a '#' is left as it is by all three substitutions, and
      the counter stays where it was. */
  lemma {:induction false} PlainContent(s: string, n: nat)
    requires '#' !in s
    ensures Tokenized(s, n) == Rewritten(s, n) && Pretty(s) == s && RemoveOpts(s) == s
  {
    PlainFrom(s, 0, n);
    assert s[0..] == s;
  }

  lemma {:induction false} PlainFrom(s: string, i: nat, n: nat)
    requires '#' !in s && i <= |s|
    ensures TokenizedText(s, i, n) == s[i..] && PlaceholdersAfter(s, i, n) == n
    ensures PrettyFrom(s, i) == s[i..] && RemoveOptsFrom(s, i) == s[i..]
    decreases |s| - i
  {
    if i < |s| {
      assert TokenAt(s, i).None? && Delimited(s, i, '{', '}').None? by {
        if i + 1 < |s| {
          assert s[i + 1] != '#';
        }
      }
      PlainFrom(s, i + 1, n);
      assert [s[i]] + s[i + 1..] == s[i..];
    }
  }

  /** A lone `<#p#>` becomes `${n:p}` with the counter one higher, and `p`
      in the hint. */
  lemma {:induction false} ParamToken(p: string, n: nat)
    requires p != [] && forall k :: 0 <= k < |p| ==> IsParamChar(p[k])
    ensures Tokenized("<#" + p + "#>", n) == Rewritten(LibClang.PlaceholderText(n + 1, p), n + 1)
    ensures Pretty("<#" + p + "#>") == p
  {
    var s := "<#" + p + "#>";
    DelimitedExact(s, '<', p, '>');
    assert TokenAt(s, 0) == Some(TokenMatch(Param(p), |s|));
    assert TokenizedText(s, |s|, n + 1) == "" && PlaceholdersAfter(s, |s|, n + 1) == n + 1;
    assert PrettyFrom(s, |s|) == "";
    assert LibClang.PlaceholderText(n + 1, p) + "" == LibClang.PlaceholderText(n + 1, p);
    assert p + "" == p;
  }

  /** UTF-8 "ò" read byte by byte with `chr` is "Ã²"; both are word
      characters, so `<#Ã²#>` is a placeholder like any other. */
  lemma ParamTokenLatin1()
    ensures Tokenized("<#\U{C3}\U{B2}#>", 0) == Rewritten(LibClang.PlaceholderText(1, "\U{C3}\U{B2}"), 1)
  {
    var p := "\U{C3}\U{B2}";
    assert IsParamChar(p[0]) && IsParamChar(p[1]);
    assert "<#" + p + "#>" == "<#\U{C3}\U{B2}#>";
    ParamToken(p, 0);
  }

  /** A lone `[#t#]` disappears from the contents with the counter one
      higher, and becomes `t` and a space in the hint. */
  lemma {:induction false} TypeToken(t: string, n: nat)
    requires t != [] && forall k :: 0 <= k < |t| ==> IsParamChar(t[k])
    ensures Tokenized("[#" + t + "#]", n) == Rewritten("", n + 1)
    ensures Pretty("[#" + t + "#]") == t + " "
  {
    var s := "[#" + t + "#]";
    DelimitedExact(s, '[', t, ']');
    assert Delimited(s, 0, '<', '>').None?;
    assert TokenAt(s, 0) == Some(TokenMatch(Type(t), |s|));
    assert TokenizedText(s, |s|, n + 1) == "" && PlaceholdersAfter(s, |s|, n + 1) == n + 1;
    assert PrettyFrom(s, |s|) == "";
    assert Tokenize(Type(t), n + 1) + "" == "";
    assert t + " " + "" == t + " ";
  }

  /** A lone `{#o#}` is removed. */
  lemma {:induction false} OptsGroup(o: string)
    requires o != [] && forall k :: 0 <= k < |o| ==> IsParamChar(o[k])
    ensures RemoveOpts("{#" + o + "#}") == ""
  {
    var s := "{#" + o + "#}";
    DelimitedExact(s, '{', o, '}');
    assert RemoveOptsFrom(s, |s|) == "";
  }

  lemma {:induction false} DelimitedExact(s: string, open: char, g: string, close: char)
    requires s == [open, '#'] + g + ['#', close]
    requires g != [] && forall k :: 0 <= k < |g| ==> IsParamChar(g[k])
    ensures Delimited(s, 0, open, close) == Some(Group(g, |s|))
  {
    assert forall k :: 2 <= k < 2 + |g| ==> s[k] == g[k - 2];
    assert s[2 + |g|] == '#';
    RunLengthExact(s, 2, |g|, IsParamChar);
    assert s[2..|g| + 2] == g;
  }

  // ---------------------------------------------------------------------------
  // _process_completions

  /** The completion one matching line gives with the counter at `n`, and
      the counter afterwards: the contents through `tokenize_params` and then
      without options, the hint through `make_pretty` and then without
      options. */
  function Entry(m: LineMatch, n: nat): Numbered {
    var contents := Tokenized(m.content, n);
    Numbered(LibClang.Completion(m.name + "\t" + RemoveOpts(Pretty(m.content)), RemoveOpts(contents.text)), contents.count)
  }

  /** A completion and the counter after it. */
  datatype Numbered = Numbered(completion: LibClang.Completion, count: nat)

  /** Completions and the counter after them. */
  datatype Listing = Listing(completions: seq<LibClang.Completion>, count: nat)

  /** The completions of the output lines with the counter at `n`, and the
      counter afterwards; lines that do not match are skipped. */
  function BinCompletions(lines: seq<string>, n: nat): Listing {
    if lines == [] then Listing([], n)
    else
      var m := ScanLine(lines[0]);
      if m.None? then BinCompletions(lines[1..], n)
      else
        var e := Entry(m.value, n);
        var rest := BinCompletions(lines[1..], e.count);
        Listing([e.completion] + rest.completions, rest.count)
  }

  /** The local `Parser` class: its class-level counter. */
  class Parser {
    var placeHolders: nat

    constructor ()
      ensures placeHolders == 0
    {
      placeHolders := 0;
    }

    /** `re.sub(compl_content_regex, Parser.tokenize_params, s)`: a scan
        from left to right that rewrites each match and counts it. */
    method SubTokenize(s: string) returns (out: string)
      modifies this
      ensures Rewritten(out, placeHolders) == Tokenized(s, old(placeHolders))
    {
      var count := placeHolders;
      TokenizedOntoFrom(s, 0, count, "");
      assert "" + Tokenized(s, count).text == Tokenized(s, count).text;
      out := "";
      var i := 0;
      while i < |s|
        invariant 0 <= i <= |s|
        invariant TokenizedOnto(s, i, count, out) == Tokenized(s, old(placeHolders))
        decreases |s| - i
      {
        i, count, out := TokenizeStep(s, i, count, out);
      }
      placeHolders := count;
    }
  }

  /** One step of `re.sub`'s scan at index `i`: a match is replaced and the
      counter goes up, any other character is copied. */
  method TokenizeStep(s: string, i: nat, n: nat, out: string) returns (next: nat, count: nat, written: string)
    requires i < |s|
    ensures i < next <= |s| && TokenizedOnto(s, next, count, written) == TokenizedOnto(s, i, n, out)
  {
    var m := TokenAt(s, i);
    if m.Some? {
      count := n + 1;
      written := out + Tokenize(m.value.token, count);
      next := i + m.value.len;
    } else {
      count := n;
      written := out + [s[i]];
      next := i + 1;
    }
  }

  /** The scan with its output so far, `out`, carried along: the form the
      loop of `SubTokenize` follows. */
  function TokenizedOnto(s: string, i: nat, n: nat, out: string): Rewritten
    decreases |s| - i
  {
    if i >= |s| then Rewritten(out, n)
    else
      var m := TokenAt(s, i);
      if m.Some? then TokenizedOnto(s, i + m.value.len, n + 1, out + Tokenize(m.value.token, n + 1))
      else TokenizedOnto(s, i + 1, n, out + [s[i]])
  }

  /** Carrying the output along gives the output followed by the rewrite of
      the rest. */
  lemma {:induction false} TokenizedOntoFrom(s: string, i: nat, n: nat, out: string)
    ensures TokenizedOnto(s, i, n, out) == Rewritten(out + TokenizedText(s, i, n), PlaceholdersAfter(s, i, n))
    decreases |s| - i
  {
    if i >= |s| {
      assert out + "" == out;
    } else {
      var m := TokenAt(s, i);
      if m.Some? {
        var j := i + m.value.len;
        var piece := Tokenize(m.value.token, n + 1);
        assert TokenizedOnto(s, i, n, out) == TokenizedOnto(s, j, n + 1, out + piece);
        assert TokenizedText(s, i, n) == piece + TokenizedText(s, j, n + 1);
        assert PlaceholdersAfter(s, i, n) == PlaceholdersAfter(s, j, n + 1);
        TokenizedOntoFrom(s, j, n + 1, out + piece);
        AppendAssoc(out, piece, TokenizedText(s, j, n + 1));
      } else {
        assert TokenizedOnto(s, i, n, out) == TokenizedOnto(s, i + 1, n, out + [s[i]]);
        assert TokenizedText(s, i, n) == [s[i]] + TokenizedText(s, i + 1, n);
        assert PlaceholdersAfter(s, i, n) == PlaceholdersAfter(s, i + 1, n);
        TokenizedOntoFrom(s, i + 1, n, out + [s[i]]);
        AppendAssoc(out, [s[i]], TokenizedText(s, i + 1, n));
      }
    }
  }

  /** `_process_completions(complete_results)`: one `Parser` counter for all
      lines, from 0. */
  method ProcessCompletions(lines: seq<string>) returns (completions: seq<LibClang.Completion>)
    ensures completions == BinCompletions(lines, 0).completions
  {
    var parser := new Parser();
    completions := [];
    var i := 0;
    assert lines[i..] == lines && completions + BinCompletions(lines, 0).completions == BinCompletions(lines, 0).completions;
    while i < |lines|
      invariant 0 <= i <= |lines|
      invariant BinCompletions(lines, 0) ==
        Listing(completions + BinCompletions(lines[i..], parser.placeHolders).completions, BinCompletions(lines[i..], parser.placeHolders).count)
    {
      assert lines[i..][0] == lines[i] && lines[i..][1..] == lines[i + 1..];
      ghost var was := completions;
      ghost var count := parser.placeHolders;
      var m := ScanLine(lines[i]);
      if m.None? {
        i := i + 1;
        continue;
      }
      var trigger := m.value.name;
      var contents := parser.SubTokenize(m.value.content);
      contents := RemoveOpts(contents);
      var hint := Pretty(m.value.content);
      hint := RemoveOpts(hint);
      var entry := LibClang.Completion(trigger + "\t" + hint, contents);
      assert Numbered(entry, parser.placeHolders) == Entry(m.value, count);
      BinCompletionsStep(lines[i..], count, was);
      completions := completions + [entry];
      i := i + 1;
    }
    assert lines[i..] == [];
    assert completions + [] == completions;
  }

  lemma {:induction false} BinCompletionsStep(lines: seq<string>, n: nat, out: seq<LibClang.Completion>)
    requires lines != [] && ScanLine(lines[0]).Some?
    ensures var e := Entry(ScanLine(lines[0]).value, n);
      var rest := BinCompletions(lines[1..], e.count);
      out + BinCompletions(lines, n).completions == (out + [e.completion]) + rest.completions
  {
    var e := Entry(ScanLine(lines[0]).value, n);
    var rest := BinCompletions(lines[1..], e.count);
    assert out + ([e.completion] + rest.completions) == (out + [e.completion]) + rest.completions;
  }

  /** The counter is not reset between lines: the lines after `a` number
      their placeholders on from where the lines of `a` left the counter. */
  lemma {:induction false} BinCompletionsAppend(a: seq<string>, b: seq<string>, n: nat)
    ensures var first := BinCompletions(a, n);
      var second := BinCompletions(b, first.count);
      BinCompletions(a + b, n) == Listing(first.completions + second.completions, second.count)
  {
    if a == [] {
      assert a + b == b;
      assert [] + BinCompletions(b, n).completions == BinCompletions(b, n).completions;
    } else {
      assert (a + b)[0] == a[0] && (a + b)[1..] == a[1..] + b;
      var m := ScanLine(a[0]);
      if m.None? {
        BinCompletionsAppend(a[1..], b, n);
      } else {
        var e := Entry(m.value, n);
        BinCompletionsAppend(a[1..], b, e.count);
        var first := BinCompletions(a[1..], e.count);
        var second := BinCompletions(b, first.count);
        assert [e.completion] + (first.completions + second.completions) == ([e.completion] + first.completions) + second.completions;
      }
    }
  }

  /** One line: nothing and the counter unchanged when it does not match;
      otherwise its entry, with the counter advanced by the content's
      matches. */
  lemma {:induction false} OneLine(line: string, n: nat)
    ensures var m := ScanLine(line);
      BinCompletions([line], n) == if m.None? then Listing([], n) else Listing([Entry(m.value, n).completion], Entry(m.value, n).count)
    ensures ScanLine(line).Some? ==> BinCompletions([line], n).count == n + |TokensFrom(ScanLine(line).value.content, 0)|
  {
    assert [line][1..] == [] && [line][0] == line;
    if ScanLine(line).Some? {
      var e := Entry(ScanLine(line).value, n);
      assert BinCompletions([], e.count) == Listing([], e.count);
      assert [e.completion] + [] == [e.completion];
      TokenizedCount(ScanLine(line).value.content, 0, n);
    }
  }

  // ---------------------------------------------------------------------------
  // The version query and the command line

  /** The flags every command starts with. */
  const InitFlags: seq<string> := ["-cc1", "-fsyntax-only", "-x c++"]

  /** ASCII `\d`. */
  predicate IsDigit(c: char) {
    '0' <= c <= '9'
  }

  /** The pattern `\d.\d` matches at `p`: a digit, any character but a
      newline, a digit. */
  predicate IsVersionAt(s: string, p: nat) {
    p + 3 <= |s| && IsDigit(s[p]) && s[p + 1] != '\n' && IsDigit(s[p + 2])
  }

  function VersionAt(s: string, p: nat): Option<string> {
    if IsVersionAt(s, p) then Some(s[p..p + 3]) else None
  }

  function VersionsAt(s: string): nat -> Option<string> {
    (p: nat) => VersionAt(s, p)
  }

  const NoGroup: string := "AttributeError: 'NoneType' object has no attribute 'group'"

  /** `re.compile("\d.\d").search(output).group()`: the leftmost match, or
      the error of calling `group()` on no match. */
  function FindVersion(output: string): Result<string> {
    var m := FirstMatch(VersionsAt(output), 0, |output|);
    if m.Some? then Ok(m.value) else Err(NoGroup)
  }

  /** A version is found exactly when the pattern matches somewhere, and it
      is the three characters of the leftmost match. */
  lemma {:induction false} FindVersionLeftmost(output: string)
    ensures FindVersion(output).Ok? <==> exists p: nat :: IsVersionAt(output, p)
    ensures FindVersion(output).Ok? ==>
      exists p: nat :: IsVersionAt(output, p) && FindVersion(output).value == output[p..p + 3] &&
        forall k: nat :: k < p ==> !IsVersionAt(output, k)
    ensures FindVersion(output).Err? ==> FindVersion(output).message == NoGroup
  {
    var m := VersionsAt(output);
    var r := FirstMatch(m, 0, |output|);
    if r.Some? {
      FirstMatchFound(m, 0, |output|);
      var p: nat :| p <= |output| && m(p) == r && forall k :: 0 <= k < p ==> m(k).None?;
      assert IsVersionAt(output, p);
      forall k: nat | k < p
        ensures !IsVersionAt(output, k)
      {
        assert m(k).None?;
      }
    } else {
      forall p: nat | IsVersionAt(output, p)
        ensures false
      {
        FirstMatchMissed(m, 0, p, |output|);
      }
    }
  }

  /** Python's `str.format` of an optional string: None prints as "None". */
  function FormatOption(x: Option<string>): string {
    if x.Some? then x.value else "None"
  }

  /** `"{complete_flag} {file}:{row}:{col} {file}"` with the 1-based row and
      column. */
  function CompleteAt(file: string, row: nat, col: nat): string {
    "-code-completion-at " + file + ":" + NatToString(row) + ":" + NatToString(col) + " " + file
  }

  /** The command `complete` runs for the 0-based `(row, col)` of the cursor. */
  function CompleteCommand(binary: Option<string>, std: Option<string>, file: string, row: nat, col: nat,
                           flags: seq<string>): string {
    FormatOption(binary) + " " + Join(InitFlags, " ") + " " + FormatOption(std) + " " +
    CompleteAt(file, row + 1, col + 1) + " " + Join(flags, " ")
  }

  lemma CompleteAtJoin(file: string, row: nat, col: nat)
    ensures CompleteAt(file, row, col) ==
      Join(["-code-completion-at " + file, NatToString(row), NatToString(col) + " " + file], ":")
  {
    var head := "-code-completion-at " + file;
    var r := NatToString(row);
    var tail := NatToString(col) + " " + file;
    assert [head, r, tail][1..] == [r, tail];
    assert CompleteAt(file, row, col) == head + ":" + r + ":" + tail;
  }

  lemma NoColon(file: string, r: string, c: string)
    requires ':' !in file && IsDigits(r) && IsDigits(c)
    ensures ':' !in "-code-completion-at " + file && ':' !in r && ':' !in c + " " + file
  {
  }

  /** For a file name without ':' or ' ', the completion position reads back
      from the command text: its colon-separated fields are the flag and
      file, the 1-based row, and the 1-based column followed by the file. */
  lemma {:induction false} CompleteAtPosition(file: string, row: nat, col: nat)
    requires ':' !in file && ' ' !in file
    ensures var parts := Split(CompleteAt(file, row + 1, col + 1), ":");
      |parts| == 3 && parts[0] == "-code-completion-at " + file &&
      ParseInt(parts[1]) == Some(row + 1) &&
      ParseInt(Split(parts[2], " ")[0]) == Some(col + 1)
  {
    var head := "-code-completion-at " + file;
    var r := NatToString(row + 1);
    var c := NatToString(col + 1);
    var tail := c + " " + file;
    CompleteAtJoin(file, row + 1, col + 1);
    NoColon(file, r, c);
    SplitJoinChar([head, r, tail], ':');
    ParseDigits(r);
    NatToStringValue(row + 1);
    SplitAtChar(c, ' ', file);
    ParseDigits(c);
    NatToStringValue(col + 1);
  }

  // ---------------------------------------------------------------------------
  // Completer

  class Completer {
    var clangBinary: Option<string>
    var versionStr: Option<string>
    /** The error `__init__` raises, if any. */
    var raised: Option<string>
    var flags: seq<string>
    var stdFlag: Option<string>
    var completions: seq<LibClang.Completion>
    var asyncCompletionsReady: bool

    /** `Completer(clang_binary)`, where `versionOutput` is the text the
        binary prints for `--version`, or None when that call fails. Without
        a binary nothing is recorded; when the version query fails only the
        binary is; otherwise the version is the leftmost `\d.\d` of the
        output, and an output without one raises. */
    constructor (binary: string, versionOutput: Option<string>)
      ensures clangBinary == (if binary == "" then None else Some(binary))
      ensures binary == "" || versionOutput.None? ==> versionStr == None && raised == None
      ensures binary != "" && versionOutput.Some? ==>
        var v := FindVersion(versionOutput.value);
        versionStr == (if v.Ok? then Some(v.value) else None) && raised == (if v.Err? then Some(v.message) else None)
      ensures flags == [] && stdFlag == None && completions == [] && !asyncCompletionsReady
    {
      clangBinary := None;
      versionStr := None;
      raised := None;
      flags := [];
      stdFlag := None;
      completions := [];
      asyncCompletionsReady := false;
      new;
      if binary == "" {
        return;
      }
      clangBinary := Some(binary);
      if versionOutput.None? {
        return;
      }
      var found := FindVersion(versionOutput.value);
      if found.Err? {
        raised := Some(found.message);
        return;
      }
      versionStr := Some(found.value);
    }

    /** `has_completer(view_id)`: whatever the view, True exactly when there
        are flags. */
    function HasCompleter(viewId: int): (r: bool)
      reads this
      ensures r <==> flags != []
    {
      |flags| > 0
    }

    /** `remove_tu(view_id)`: the flags are emptied, for every view. */
    method RemoveTu(viewId: int)
      modifies this
      ensures flags == [] && forall v :: !HasCompleter(v)
      ensures stdFlag == old(stdFlag) && completions == old(completions) && asyncCompletionsReady == old(asyncCompletionsReady)
      ensures clangBinary == old(clangBinary) && versionStr == old(versionStr) && raised == old(raised)
    {
      flags := [];
    }

    /** `init_completer(...)`: the standard flag is kept, and the flags are
        one "-I" flag per configured include followed, when the search is on,
        by the flags of the `.clang_complete` found from the file's folder up
        to the project folder. */
    method InitCompleter(viewId: int, includes: seq<string>, search: bool, std: string,
                         fileFolder: Folder, projectFolder: Option<Folder>, fs: FileSystem, lines: string -> seq<string>)
      modifies this
      ensures stdFlag == Some(std)
      ensures flags == LibClang.IncludeFlags(includes) +
        (if search then LibClang.ClangCompleteFlags(fs, fileFolder, projectFolder, lines) else [])
      ensures completions == old(completions) && asyncCompletionsReady == old(asyncCompletionsReady)
      ensures clangBinary == old(clangBinary) && versionStr == old(versionStr) && raised == old(raised)
    {
      stdFlag := Some(std);
      flags := LibClang.BuildIncludeFlags(includes);
      if search {
        var found := LibClang.SearchAndParse(fs, fileFolder, projectFolder, lines);
        flags := flags + found;
      }
    }

    /** `complete(view, cursor_pos)` with the cursor at the 0-based `(row,
        col)` and the view saved to `file`: the command run, and the
        completions of the lines of `output`, the text the binary answers
        with (or the output of its failure). */
    method Complete(row: nat, col: nat, file: string, output: string) returns (command: string)
      modifies this
      ensures command == CompleteCommand(clangBinary, stdFlag, file, row, col, flags)
      ensures completions == BinCompletions(SplitLines(output), 0).completions && asyncCompletionsReady
      ensures flags == old(flags) && stdFlag == old(stdFlag) && clangBinary == old(clangBinary)
      ensures versionStr == old(versionStr) && raised == old(raised)
    {
      var completeAt := CompleteAt(file, row + 1, col + 1);
      command := FormatOption(clangBinary) + " " + Join(InitFlags, " ") + " " + FormatOption(stdFlag) + " " +
        completeAt + " " + Join(flags, " ");
      var results := SplitLines(output);
      completions := ProcessCompletions(results);
      asyncCompletionsReady := true;
    }
  }

  /** After `init_completer` there is a completer exactly when there is an
      include or the `.clang_complete` gave a flag. */
  lemma {:induction false} InitHasCompleter(includes: seq<string>, search: bool, fs: FileSystem, fileFolder: Folder,
                         projectFolder: Option<Folder>, lines: string -> seq<string>)
    ensures var f := LibClang.IncludeFlags(includes) +
        (if search then LibClang.ClangCompleteFlags(fs, fileFolder, projectFolder, lines) else []);
      f != [] <==> includes != [] || (search && LibClang.ClangCompleteFlags(fs, fileFolder, projectFolder, lines) != [])
  {
  }
}
