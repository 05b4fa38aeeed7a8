/** The compiler-flag value type of plugin/utils/flag.py: a flag is a prefix
    (empty when the flag is not separable) and a body; `Flag.Builder` fills
    the two parts in, and `Flag.tokenize_list` turns an argument vector into
    flags. */
module Flags {
  import opened Wrappers
  import opened Strings
  import Collections

  /** `Flag(prefix, body, separator)` */
  datatype Flag = Flag(prefix: string, body: string, separator: string) {
    /** `Flag.as_list()` */
    function AsList(): (r: seq<string>)
      ensures |r| == (if prefix == "" then 1 else 2) && r[|r| - 1] == body
    {
      if prefix != "" then [prefix, body] else [body]
    }

    /** `str(flag)` */
    function ToString(): string {
      if prefix != "" then prefix + separator + body else body
    }

    /** The string whose hash `Flag.__hash__` returns. */
    function HashKey(): string {
      if prefix != "" then prefix + body else body
    }

    /** `Flag.__eq__`: the separator plays no part. */
    predicate Same(other: Flag) {
      prefix == other.prefix && body == other.body
    }
  }

  /** A flag built with the default separator ' '. */
  function NewFlag(prefix: string, body: string): (f: Flag)
    ensures f.prefix == prefix && f.body == body && f.separator == " "
  {
    Flag(prefix, body, " ")
  }

  /** `str(flag)` is the list form joined by the separator. */
  lemma ToStringIsJoinedList(f: Flag)
    ensures f.ToString() == Join(f.AsList(), f.separator)
  {
    if f.prefix != "" {
      assert f.AsList()[1..] == [f.body];
    }
  }

  /** The list form concatenated is the hashed string. */
  lemma HashKeyIsConcatenatedList(f: Flag)
    ensures f.HashKey() == Join(f.AsList(), "")
  {
    if f.prefix != "" {
      assert f.AsList()[1..] == [f.body];
    }
  }

  /** Equal flags hash alike; flags that differ only in the separator are equal. */
  lemma SameConsistent(a: Flag, b: Flag)
    ensures a.Same(b) ==> a.HashKey() == b.HashKey()
    ensures a.Same(b) <==> a.prefix == b.prefix && a.body == b.body
    ensures a.separator == b.separator ==> (a.Same(b) <==> a == b)
  {
  }

  /** `Flag.PREFIXES_WITH_PATHS` as intended: every listed prefix is its own
      element. */
  const PathPrefixes: set<string> := {
    "-isystem", "-I", "-isysroot", "/I", "-msvc", "/msvc", "-B", "--cuda-path",
    "-fmodules-cache-path", "-fmodules-user-build-path", "-fplugin",
    "-fprebuilt-module-path", "-fprofile-use", "-F", "-idirafter", "-iframework",
    "-iquote", "-iwithprefix", "-L", "-objcmt-whitelist-dir-path", "--ptxas-path"
  }

  /** `Flag.PREFIXES_WITH_PATHS` as written: a missing comma makes Python join
      two adjacent literals into one element. */
  const PathPrefixesAsWritten: set<string> := {
    "-isystem", "-I", "-isysroot", "/I", "-msvc", "/msvc", "-B", "--cuda-path",
    "-fmodules-cache-path", "-fmodules-user-build-path", "-fplugin",
    "-fprebuilt-module-path" + "-fprofile-use", "-F", "-idirafter", "-iframework",
    "-iquote", "-iwithprefix", "-L", "-objcmt-whitelist-dir-path", "--ptxas-path"
  }

  /** `Flag.SEPARABLE_PREFIXES` */
  const SeparablePrefixes: set<string> := {
    "-arcmt-migrate-report-output", "-cxx-isystem", "-dependency-dot",
    "-dependency-file", "-fmodules-user-build-path", "-F", "-idirafter",
    "-iframework", "-imacros", "-include-pch", "-include", "-iprefix", "-iquote",
    "-isysroot", "-isystem", "-ivfsoverlay", "-iwithprefixbefore", "-iwithprefix",
    "-iwithsysroot", "-I", "-meabi", "-MF", "-mllvm", "-Xclang",
    "-module-dependency-dir", "-MQ", "-mthread-model", "-MT", "-o",
    "-serialize-diagnostics", "-working-directory", "-Xanalyzer", "-Xassembler",
    "-Xlinker", "-Xpreprocessor", "-x", "-z", "/FI", "/I", "/link", "/Tc", "/Tp", "/U"
  }

  /** The two prefixes the missing comma loses are not path prefixes as
      written, though both are in the intended set. */
  lemma PathPrefixesAsWrittenLosesTwo()
    ensures "-fprofile-use" !in PathPrefixesAsWritten && "-fprebuilt-module-path" !in PathPrefixesAsWritten
    ensures "-fprofile-use" in PathPrefixes && "-fprebuilt-module-path" in PathPrefixes
    ensures "-fprebuilt-module-path-fprofile-use" in PathPrefixesAsWritten && "-fprebuilt-module-path-fprofile-use" !in PathPrefixes
  {
    assert "-fprofile-use" !in PathPrefixesAsWritten;
    assert "-fprebuilt-module-path" !in PathPrefixesAsWritten;
    assert "-fprebuilt-module-path" + "-fprofile-use" == "-fprebuilt-module-path-fprofile-use";
    assert "-fprebuilt-module-path-fprofile-use" in PathPrefixesAsWritten;
  }

  /** Every separable prefix starts with '-' or '/' and has no surrounding
      whitespace. */
  lemma SeparablePrefixesStripped(p: string)
    requires p in SeparablePrefixes
    ensures StripWs(p) == p && !StartsWith(p, "#")
  {
    SeparableShape(p);
    VisibleNotSpace(p[0]);
    VisibleNotSpace(p[|p| - 1]);
    StripWsUnchanged(p);
  }

  /** Every separable prefix is at least two characters long, starts with
      '-' or '/' and ends with a letter. */
  lemma SeparableShape(p: string)
    requires p in SeparablePrefixes
    ensures |p| >= 2 && (p[0] == '-' || p[0] == '/') && 'A' <= p[|p| - 1] <= 'z'
  {
  }

  lemma SeparablePrefixesAllStripped()
    ensures forall q :: q in SeparablePrefixes ==> StripWs(q) == q
    ensures "" !in PathPrefixes
  {
    forall q | q in SeparablePrefixes ensures StripWs(q) == q {
      SeparablePrefixesStripped(q);
    }
    EmptyNotPathPrefix();
  }

  lemma EmptyNotPathPrefix()
    ensures "" !in PathPrefixes
  {
    assert forall p :: p in PathPrefixes ==> |p| > 1;
  }

  /** `order` lists the elements of `SeparablePrefixes`: the order in which a
      `for` loop over the Python set visits them, which the language leaves
      open. */
  predicate Enumerates(order: seq<string>, prefixes: set<string>) {
    (forall k :: 0 <= k < |order| ==> order[k] in prefixes) &&
    (forall p :: p in prefixes ==> p in order)
  }

  /** The index in `order` of the first prefix `chunk` starts with. */
  function FirstPrefix(chunk: string, order: seq<string>): (r: Option<nat>)
    ensures r.Some? ==> r.value < |order| && StartsWith(chunk, order[r.value])
    ensures r.Some? ==> forall k :: 0 <= k < r.value ==> !StartsWith(chunk, order[k])
    ensures r.None? ==> forall k :: 0 <= k < |order| ==> !StartsWith(chunk, order[k])
    decreases |order|
  {
    if order == [] then None
    else if StartsWith(chunk, order[0]) then Some(0)
    else
      var r := FirstPrefix(chunk, order[1..]);
      if r.Some? then Some(r.value + 1) else None
  }

  /** The builder's (prefix, body) after `from_unparsed_string(chunk)`, starting
      from (`prefix0`, `body0`). */
  function FromUnparsed(prefix0: string, body0: string, chunk: string, order: seq<string>): (string, string) {
    var c := StripWs(chunk);
    var m := FirstPrefix(c, order);
    var prefix := if m.Some? then order[m.value] else prefix0;
    var body := if m.Some? then c[|order[m.value]|..] else body0;
    (prefix, if body == "" then c else body)
  }

  /** From a fresh builder, `from_unparsed_string` gives either no prefix and
      the stripped chunk, or a separable prefix the stripped chunk starts with
      and the rest of the chunk, or the whole chunk when nothing follows the
      prefix; with no separable prefix to find, only the first case is
      possible. This holds for every order of the prefix set. */
  lemma FromUnparsedSpec(chunk: string, order: seq<string>, prefixes: set<string>)
    requires Enumerates(order, prefixes)
    ensures var (p, b) := FromUnparsed("", "", chunk, order);
      var c := StripWs(chunk);
      (p == "" && b == c) ||
      (p in prefixes && StartsWith(c, p) &&
       (if |c| == |p| then b == c else p + b == c))
    ensures var c := StripWs(chunk);
      (forall q :: q in prefixes ==> !StartsWith(c, q)) ==>
      FromUnparsed("", "", chunk, order) == ("", c)
  {
    var c := StripWs(chunk);
    var m := FirstPrefix(c, order);
    if m.Some? {
      FromUnparsedFound(c, order, m.value);
    } else {
      forall q | q in prefixes ensures !StartsWith(c, q) {
        var k :| 0 <= k < |order| && order[k] == q;
      }
    }
  }

  lemma FromUnparsedFound(c: string, order: seq<string>, i: nat)
    requires i < |order| && StartsWith(c, order[i])
    ensures order[i] + c[|order[i]|..] == c
  {
    var p := order[i];
    assert c[..|p|] == p;
  }

  /** A chunk that is exactly the prefix it is matched with keeps the whole
      chunk as its body. */
  lemma FromUnparsedWholeChunk(chunk: string, order: seq<string>)
    requires FirstPrefix(StripWs(chunk), order).Some?
    requires order[FirstPrefix(StripWs(chunk), order).value] == StripWs(chunk)
    ensures FromUnparsed("", "", chunk, order) == (StripWs(chunk), StripWs(chunk))
  {
  }

  /** `Builder.with_body(body)` / `with_prefix(prefix)` store the stripped text. */
  function WithPart(part: string): (r: string)
    ensures r == StripWs(part) && (r != [] ==> r[0] !in Whitespace && r[|r| - 1] !in Whitespace)
  {
    StripWs(part)
  }

  /** Flags with one prefix and the given bodies, in order. */
  function PrefixedAll(prefix: string, bodies: seq<string>): (r: seq<Flag>)
    ensures |r| == |bodies|
    ensures forall k :: 0 <= k < |r| ==> r[k] == NewFlag(prefix, bodies[k])
  {
    if bodies == [] then [] else [NewFlag(prefix, bodies[0])] + PrefixedAll(prefix, bodies[1..])
  }

  /** `File.expand_all(body, current_folder)`: glob and wildcard expansion,
      which the model takes as given. */
  type Expander = (string, string) -> seq<string>

  /** `build_with_expansion(current_folder)` on a builder holding
      (`prefix`, `body`), over a set of path prefixes. */
  function ExpansionOver(paths: set<string>, prefix: string, body: string, folder: string, expand: Expander): (r: seq<Flag>)
    ensures prefix in paths ==>
      |r| == |expand(body, folder)| && forall k :: 0 <= k < |r| ==> r[k] == NewFlag(prefix, expand(body, folder)[k])
    ensures prefix !in paths ==> r == [NewFlag(prefix, body)]
  {
    if prefix in paths then PrefixedAll(prefix, expand(body, folder)) else [NewFlag(prefix, body)]
  }

  /** `build_with_expansion` with the intended path prefixes. */
  function Expansion(prefix: string, body: string, folder: string, expand: Expander): seq<Flag> {
    ExpansionOver(PathPrefixes, prefix, body, folder, expand)
  }

  /** `build_with_expansion` as written. */
  function ExpansionAsWritten(prefix: string, body: string, folder: string, expand: Expander): seq<Flag> {
    ExpansionOver(PathPrefixesAsWritten, prefix, body, folder, expand)
  }

  /** As written, a "-fprofile-use" path is kept unexpanded, one flag whatever
      `expand_all` would give; as intended, it is expanded. */
  lemma ProfileUseNotExpandedAsWritten(body: string, folder: string, expand: Expander)
    ensures ExpansionAsWritten("-fprofile-use", body, folder, expand) == [NewFlag("-fprofile-use", body)]
    ensures |Expansion("-fprofile-use", body, folder, expand)| == |expand(body, folder)|
  {
    PathPrefixesAsWrittenLosesTwo();
  }

  /** The separable prefixes that are also path prefixes are the same in both
      sets, so `tokenize_list` cannot tell them apart. */
  lemma SeparablePathPrefixesAgree(p: string)
    requires p in SeparablePrefixes
    ensures p in PathPrefixes <==> p in PathPrefixesAsWritten
  {
    PathPrefixesAsWrittenLosesTwo();
  }

  /** `Flag.Builder` */
  class Builder {
    var prefix: string
    var body: string

    /** `Flag.Builder()` */
    constructor()
      ensures prefix == "" && body == ""
    {
      prefix := "";
      body := "";
    }

    /** `from_unparsed_string(chunk)`: the loop visits the prefixes in `order`. */
    method FromUnparsedString(chunk: string, order: seq<string>)
      modifies this
      ensures (prefix, body) == FromUnparsed(old(prefix), old(body), chunk, order)
    {
      var c := StripWs(chunk);
      var m := FindPrefix(c, order);
      if m.Some? {
        prefix := order[m.value];
        body := c[|order[m.value]|..];
      }
      if body == "" {
        body := c;
      }
    }

    /** `with_body(body)` */
    method WithBody(newBody: string)
      modifies this
      ensures body == WithPart(newBody) && prefix == old(prefix)
    {
      body := StripWs(newBody);
    }

    /** `with_prefix(prefix)`; the warning for a prefix that is not separable
        is only logged. */
    method WithPrefix(newPrefix: string)
      modifies this
      ensures prefix == WithPart(newPrefix) && body == old(body)
    {
      prefix := StripWs(newPrefix);
    }

    /** `build_with_expansion(current_folder)` */
    method BuildWithExpansion(folder: string, expand: Expander) returns (flags: seq<Flag>)
      ensures flags == Expansion(prefix, body, folder, expand)
    {
      if prefix in PathPrefixes {
        var bodies := expand(body, folder);
        flags := [];
        var i := 0;
        while i < |bodies|
          invariant 0 <= i <= |bodies|
          invariant flags == PrefixedAll(prefix, bodies[..i])
        {
          PrefixedAllSnoc(prefix, bodies[..i], bodies[i]);
          assert bodies[..i + 1] == bodies[..i] + [bodies[i]];
          flags := flags + [NewFlag(prefix, bodies[i])];
          i := i + 1;
        }
        assert bodies[..i] == bodies;
      } else {
        flags := [NewFlag(prefix, body)];
      }
    }
  }

  /** The `for ... break` loop of `from_unparsed_string`: stop at the first
      prefix `c` starts with. */
  method FindPrefix(c: string, order: seq<string>) returns (m: Option<nat>)
    ensures m == FirstPrefix(c, order)
  {
    var i := 0;
    while i < |order| && !StartsWith(c, order[i])
      invariant 0 <= i <= |order|
      invariant forall k :: 0 <= k < i ==> !StartsWith(c, order[k])
    {
      i := i + 1;
    }
    if i < |order| {
      FirstPrefixAt(c, order, i);
      m := Some(i);
    } else {
      FirstPrefixNone(c, order);
      m := None;
    }
  }

  lemma FirstPrefixAt(c: string, order: seq<string>, i: nat)
    requires i < |order| && StartsWith(c, order[i])
    requires forall k :: 0 <= k < i ==> !StartsWith(c, order[k])
    ensures FirstPrefix(c, order) == Some(i)
  {
  }

  lemma FirstPrefixNone(c: string, order: seq<string>)
    requires forall k :: 0 <= k < |order| ==> !StartsWith(c, order[k])
    ensures FirstPrefix(c, order) == None
  {
  }

  lemma PrefixedAllSnoc(prefix: string, bodies: seq<string>, b: string)
    ensures PrefixedAll(prefix, bodies + [b]) == PrefixedAll(prefix, bodies) + [NewFlag(prefix, b)]
  {
  }

  /** The two prefix tables the tokenizer consults. */
  datatype PrefixTables = PrefixTables(separable: set<string>, paths: set<string>)

  /** The tables of plugin/utils/flag.py, with the intended path prefixes. */
  const Tables := PrefixTables(SeparablePrefixes, PathPrefixes)

  /** The flags one entry that is neither a comment nor skipped gives, and
      whether it consumes the entry after it. */
  function EntryFlags(t: PrefixTables, entries: seq<string>, folder: string, order: seq<string>, expand: Expander): (r: (seq<Flag>, bool))
    requires entries != []
  {
    var entry := entries[0];
    if entry in t.separable && |entries| > 1 then
      (ExpansionOver(t.paths, WithPart(entry), WithPart(entries[1]), folder, expand), true)
    else
      var (p, b) := FromUnparsed("", "", entry, order);
      (ExpansionOver(t.paths, p, b, folder, expand), false)
  }

  lemma EntryFlagsPair(t: PrefixTables, entries: seq<string>, folder: string, order: seq<string>, expand: Expander)
    requires |entries| > 1 && entries[0] in t.separable
    ensures EntryFlags(t, entries, folder, order, expand) ==
      (ExpansionOver(t.paths, WithPart(entries[0]), WithPart(entries[1]), folder, expand), true)
  {
  }

  lemma EntryFlagsChunk(t: PrefixTables, entries: seq<string>, folder: string, order: seq<string>, expand: Expander)
    requires entries != [] && !(|entries| > 1 && entries[0] in t.separable)
    ensures EntryFlags(t, entries, folder, order, expand) ==
      (ExpansionOver(t.paths, FromUnparsed("", "", entries[0], order).0, FromUnparsed("", "", entries[0], order).1, folder, expand), false)
  {
  }

  /** `tokenize_list` from some entry on: `entries` are the entries still to
      visit and `skip` is the pending `skip_next_entry`. */
  function Tokens(t: PrefixTables, entries: seq<string>, skip: bool, folder: string, order: seq<string>, expand: Expander): seq<Flag>
    decreases |entries|
  {
    if entries == [] then []
    else if StartsWith(entries[0], "#") then Tokens(t, entries[1..], skip, folder, order, expand)
    else if skip then Tokens(t, entries[1..], false, folder, order, expand)
    else
      var (flags, consumed) := EntryFlags(t, entries, folder, order, expand);
      flags + Tokens(t, entries[1..], consumed, folder, order, expand)
  }

  /** One step of `tokenize_list` on an entry that is neither a comment nor skipped. */
  lemma TokensUnfold(t: PrefixTables, entries: seq<string>, folder: string, order: seq<string>, expand: Expander)
    requires entries != [] && !StartsWith(entries[0], "#")
    ensures Tokens(t, entries, false, folder, order, expand) ==
      EntryFlags(t, entries, folder, order, expand).0 +
        Tokens(t, entries[1..], EntryFlags(t, entries, folder, order, expand).1, folder, order, expand)
  {
  }

  /** A pending skip drops the next entry that is not a comment. */
  lemma TokensSkip(t: PrefixTables, entries: seq<string>, folder: string, order: seq<string>, expand: Expander)
    requires entries != [] && !StartsWith(entries[0], "#")
    ensures Tokens(t, entries, true, folder, order, expand) == Tokens(t, entries[1..], false, folder, order, expand)
  {
  }

  /** An entry starting with '#' gives no flag and leaves a pending skip as it is. */
  lemma TokensComment(t: PrefixTables, entries: seq<string>, skip: bool, folder: string, order: seq<string>, expand: Expander)
    requires entries != [] && StartsWith(entries[0], "#")
    ensures Tokens(t, entries, skip, folder, order, expand) == Tokens(t, entries[1..], skip, folder, order, expand)
  {
  }

  /** `Flag.tokenize_list(all_split_line, current_folder)` */
  function Tokenize(line: seq<string>, folder: string, order: seq<string>, expand: Expander): seq<Flag> {
    Tokens(Tables, line, false, folder, order, expand)
  }

  /** The body of the `tokenize_list` loop for an entry that is neither a
      comment nor skipped: a separable prefix with an entry after it takes
      that entry as its body, any other entry is parsed as a chunk. */
  method TokenizeEntry(entries: seq<string>, folder: string, order: seq<string>, expand: Expander)
    returns (built: seq<Flag>, consumed: bool)
    requires entries != []
    ensures (built, consumed) == EntryFlags(Tables, entries, folder, order, expand)
  {
    var builder := new Builder();
    if entries[0] in SeparablePrefixes && 1 < |entries| {
      builder.WithPrefix(entries[0]);
      builder.WithBody(entries[1]);
      consumed := true;
      EntryFlagsPair(Tables, entries, folder, order, expand);
    } else {
      builder.FromUnparsedString(entries[0], order);
      consumed := false;
      EntryFlagsChunk(Tables, entries, folder, order, expand);
    }
    built := builder.BuildWithExpansion(folder, expand);
  }

  /** One pass of the `tokenize_list` loop body, on the entries still to visit. */
  method TokenizeAt(entries: seq<string>, skip: bool, folder: string, order: seq<string>, expand: Expander)
    returns (built: seq<Flag>, nextSkip: bool)
    requires entries != []
    ensures built + Tokens(Tables, entries[1..], nextSkip, folder, order, expand) == Tokens(Tables, entries, skip, folder, order, expand)
  {
    if StartsWith(entries[0], "#") {
      TokensComment(Tables, entries, skip, folder, order, expand);
      return [], skip;
    }
    if skip {
      TokensSkip(Tables, entries, folder, order, expand);
      return [], false;
    }
    built, nextSkip := TokenizeEntry(entries, folder, order, expand);
    TokensUnfold(Tables, entries, folder, order, expand);
  }

  /** `Flag.tokenize_list(all_split_line, current_folder)`, with its loop. */
  method TokenizeList(line: seq<string>, folder: string, order: seq<string>, expand: Expander)
    returns (flags: seq<Flag>)
    ensures flags == Tokenize(line, folder, order, expand)
  {
    flags := [];
    var skip := false;
    var i := 0;
    while i < |line|
      invariant 0 <= i <= |line|
      invariant flags + Tokens(Tables, line[i..], skip, folder, order, expand) == Tokenize(line, folder, order, expand)
    {
      flags, skip := TokenizeNext(line, i, flags, skip, folder, order, expand);
      i := i + 1;
    }
  }

  /** One turn of the `tokenize_list` loop: the flags so far followed by the
      scan of the rest stay the same. */
  method TokenizeNext(line: seq<string>, i: nat, flags: seq<Flag>, skip: bool, folder: string, order: seq<string>,
                      expand: Expander)
    returns (next: seq<Flag>, nextSkip: bool)
    requires i < |line|
    ensures next + Tokens(Tables, line[i + 1..], nextSkip, folder, order, expand) ==
      flags + Tokens(Tables, line[i..], skip, folder, order, expand)
  {
    assert line[i..][1..] == line[i + 1..];
    var built;
    built, nextSkip := TokenizeAt(line[i..], skip, folder, order, expand);
    next := flags + built;
    Collections.AppendAssoc(flags, built, Tokens(Tables, line[i + 1..], nextSkip, folder, order, expand));
  }

  lemma TokensPairStep(t: PrefixTables, entries: seq<string>, folder: string, order: seq<string>, expand: Expander)
    requires |entries| > 1 && entries[0] in t.separable
    requires !StartsWith(entries[0], "#") && !StartsWith(entries[1], "#")
    ensures Tokens(t, entries, false, folder, order, expand) ==
      ExpansionOver(t.paths, WithPart(entries[0]), WithPart(entries[1]), folder, expand) + Tokens(t, entries[2..], false, folder, order, expand)
  {
    EntryFlagsPair(t, entries, folder, order, expand);
    TokensUnfold(t, entries, folder, order, expand);
    assert entries[1..][1..] == entries[2..];
    TokensSkip(t, entries[1..], folder, order, expand);
  }

  /** A separable prefix followed by an entry that is not a comment gives one
      flag of that prefix and the stripped entry, unless the prefix holds
      paths; the entry is not visited again. */
  lemma TokensSeparablePairOver(t: PrefixTables, p: string, next: string, rest: seq<string>, folder: string, order: seq<string>, expand: Expander)
    requires p in t.separable && p !in t.paths && !StartsWith(next, "#")
    requires StripWs(p) == p && !StartsWith(p, "#")
    ensures Tokens(t, [p, next] + rest, false, folder, order, expand) ==
      [NewFlag(p, StripWs(next))] + Tokens(t, rest, false, folder, order, expand)
  {
    ConsTwo(p, next, rest);
    TokensPairStep(t, [p, next] + rest, folder, order, expand);
  }

  lemma TokensSeparablePair(p: string, next: string, rest: seq<string>, folder: string, order: seq<string>, expand: Expander)
    requires p in SeparablePrefixes && p !in PathPrefixes && !StartsWith(next, "#")
    ensures Tokenize([p, next] + rest, folder, order, expand) ==
      [NewFlag(p, StripWs(next))] + Tokenize(rest, folder, order, expand)
  {
    SeparablePrefixesStripped(p);
    TokensSeparablePairOver(Tables, p, next, rest, folder, order, expand);
  }

  /** A comment right after a separable prefix becomes its body, and the
      pending skip then drops the entry after the comment. */
  lemma ConsTwo(a: string, b: string, rest: seq<string>)
    ensures var e := [a, b] + rest; |e| > 1 && e[0] == a && e[1] == b && e[2..] == rest
  {
  }

  lemma ConsThree(a: string, b: string, c: string, rest: seq<string>)
    ensures var e := [a, b, c] + rest; |e| > 2 && e[0] == a && e[1] == b && e[2] == c && e[3..] == rest
  {
  }

  /** A separable prefix, a comment and an entry that is not one, as one step. */
  lemma TokensCommentStep(t: PrefixTables, entries: seq<string>, folder: string, order: seq<string>, expand: Expander)
    requires |entries| > 2 && entries[0] in t.separable && !StartsWith(entries[0], "#")
    requires StartsWith(entries[1], "#") && !StartsWith(entries[2], "#")
    ensures Tokens(t, entries, false, folder, order, expand) ==
      ExpansionOver(t.paths, WithPart(entries[0]), WithPart(entries[1]), folder, expand) + Tokens(t, entries[3..], false, folder, order, expand)
  {
    EntryFlagsPair(t, entries, folder, order, expand);
    TokensUnfold(t, entries, folder, order, expand);
    assert entries[1..][1..] == entries[2..];
    TokensComment(t, entries[1..], true, folder, order, expand);
    assert entries[2..][1..] == entries[3..];
    TokensSkip(t, entries[2..], folder, order, expand);
  }

  lemma TokensCommentAsBodyOver(t: PrefixTables, p: string, comment: string, x: string, rest: seq<string>, folder: string, order: seq<string>, expand: Expander)
    requires p in t.separable && StartsWith(comment, "#") && !StartsWith(x, "#")
    requires StripWs(p) == p && !StartsWith(p, "#")
    ensures Tokens(t, [p, comment, x] + rest, false, folder, order, expand) ==
      ExpansionOver(t.paths, p, StripWs(comment), folder, expand) + Tokens(t, rest, false, folder, order, expand)
  {
    ConsThree(p, comment, x, rest);
    TokensCommentStep(t, [p, comment, x] + rest, folder, order, expand);
  }

  lemma TokensCommentAsBody(p: string, comment: string, x: string, rest: seq<string>, folder: string, order: seq<string>, expand: Expander)
    requires p in SeparablePrefixes && StartsWith(comment, "#") && !StartsWith(x, "#")
    ensures Tokenize([p, comment, x] + rest, folder, order, expand) ==
      Expansion(p, StripWs(comment), folder, expand) + Tokenize(rest, folder, order, expand)
  {
    SeparablePrefixesStripped(p);
    TokensCommentAsBodyOver(Tables, p, comment, x, rest, folder, order, expand);
  }

  lemma TokensLastOver(t: PrefixTables, p: string, folder: string, order: seq<string>, expand: Expander)
    requires !StartsWith(p, "#")
    ensures Tokens(t, [p], false, folder, order, expand) ==
      ExpansionOver(t.paths, FromUnparsed("", "", p, order).0, FromUnparsed("", "", p, order).1, folder, expand)
  {
    EntryFlagsChunk(t, [p], folder, order, expand);
    TokensUnfold(t, [p], folder, order, expand);
  }

  /** A separable prefix as the last entry is parsed like any other chunk. */
  lemma TokensSeparableLast(p: string, folder: string, order: seq<string>, expand: Expander)
    requires p in SeparablePrefixes
    ensures Tokenize([p], folder, order, expand) ==
      Expansion(FromUnparsed("", "", p, order).0, FromUnparsed("", "", p, order).1, folder, expand)
  {
    SeparablePrefixesStripped(p);
    TokensLastOver(Tables, p, folder, order, expand);
  }

  /** An entry that is neither a comment nor starts with a separable prefix
      becomes one flag with an empty prefix and the stripped entry. */
  lemma TokensPlainOver(t: PrefixTables, entry: string, rest: seq<string>, folder: string, order: seq<string>, expand: Expander)
    requires Enumerates(order, t.separable) && "" !in t.paths && !StartsWith(entry, "#")
    requires forall q :: q in t.separable ==> StripWs(q) == q
    requires forall q :: q in t.separable ==> !StartsWith(StripWs(entry), q)
    ensures Tokens(t, [entry] + rest, false, folder, order, expand) ==
      [NewFlag("", StripWs(entry))] + Tokens(t, rest, false, folder, order, expand)
  {
    FromUnparsedSpec(entry, order, t.separable);
    assert entry !in t.separable;
    var entries := [entry] + rest;
    assert entries[0] == entry && entries[1..] == rest;
    EntryFlagsChunk(t, entries, folder, order, expand);
    TokensUnfold(t, entries, folder, order, expand);
  }

  lemma TokensPlain(entry: string, rest: seq<string>, folder: string, order: seq<string>, expand: Expander)
    requires Enumerates(order, SeparablePrefixes) && !StartsWith(entry, "#")
    requires forall q :: q in SeparablePrefixes ==> !StartsWith(StripWs(entry), q)
    ensures Tokenize([entry] + rest, folder, order, expand) ==
      [NewFlag("", StripWs(entry))] + Tokenize(rest, folder, order, expand)
  {
    SeparablePrefixesAllStripped();
    TokensPlainOver(Tables, entry, rest, folder, order, expand);
  }
}
