/** plugin/utils/compiler_builtins.py: the compiler, language standard and
    target language guessed from a compiler call, and the built-in defines
    and include paths read back from the compiler's output, memoised per
    (compiler, standard, language). Running the compiler is a parameter
    `run` from a command line to its captured output (`Tools.run_command`
    with the default ""). */
module CompilerBuiltIns {
  import opened Wrappers
  import opened Strings
  import opened PyPath
  import opened Collections
  import UniqueList
  import opened Regex

  // ---------------------------------------------------------------------------
  // _guess_compiler

  const StdPrefix: string := "-std="

  /** The text after `prefix` of the last entry of `args` that starts with it. */
  function LastWith(args: seq<string>, prefix: string): (r: Option<string>)
    decreases |args|
  {
    if args == [] then None
    else if StartsWith(args[|args| - 1], prefix) then Some(args[|args| - 1][|prefix|..])
    else LastWith(args[..|args| - 1], prefix)
  }

  /** `LastWith` finds the last entry with the prefix, and nothing when no
      entry has it. */
  lemma {:induction false} LastWithSpec(args: seq<string>, prefix: string)
    ensures LastWith(args, prefix).None? <==> forall k :: 0 <= k < |args| ==> !StartsWith(args[k], prefix)
    ensures LastWith(args, prefix).Some? ==>
      exists k :: 0 <= k < |args| && StartsWith(args[k], prefix) &&
        LastWith(args, prefix).value == args[k][|prefix|..] &&
        forall j :: k < j < |args| ==> !StartsWith(args[j], prefix)
    decreases |args|
  {
    if args != [] {
      var n := |args| - 1;
      var front := args[..n];
      LastWithSpec(front, prefix);
      assert forall k :: 0 <= k < n ==> front[k] == args[k];
      if !StartsWith(args[n], prefix) && LastWith(front, prefix).Some? {
        var k :| 0 <= k < n && StartsWith(front[k], prefix) &&
          LastWith(front, prefix).value == front[k][|prefix|..] &&
          forall j :: k < j < n ==> !StartsWith(front[j], prefix);
        assert StartsWith(args[k], prefix);
      }
    }
  }

  /** The standard the call selects: the last "-std=" argument after the
      compiler. */
  function GuessedStd(args: seq<string>): Option<string> {
    if |args| > 1 then LastWith(args[1..], StdPrefix) else None
  }

  /** `_guess_compiler(args)`: the compiler is the first argument; the
      loop keeps overwriting `std` with every later "-std=" argument. */
  method GuessCompiler(args: seq<string>) returns (compiler: Option<string>, std: Option<string>)
    ensures compiler == (if |args| > 0 then Some(args[0]) else None)
    ensures std == GuessedStd(args)
  {
    compiler := None;
    std := None;
    if |args| > 0 {
      compiler := Some(args[0]);
    }
    if |args| > 1 {
      var rest := args[1..];
      var i := 0;
      while i < |rest|
        invariant 0 <= i <= |rest|
        invariant std == LastWith(rest[..i], StdPrefix)
      {
        assert rest[..i + 1][..i] == rest[..i];
        if StartsWith(rest[i], StdPrefix) {
          std := Some(rest[i][5..]);
        }
        i := i + 1;
      }
      assert rest[..i] == rest;
    }
  }

  // ---------------------------------------------------------------------------
  // _guess_language

  const CppExtensions: seq<string> := ["cc", "cpp", "cxx", "C", "c++"]
  const ObjcExtensions: seq<string> := ["m", "mm"]

  /** `splitext(filename)[1][1:]`: the extension without its dot. */
  function Extension(filename: string): (r: string)
    ensures '/' !in r
  {
    var ext := SplitExt(filename).1;
    if ext == [] then [] else ext[1..]
  }

  /** The language a file extension implies. */
  function ExtensionLanguage(ext: string): Option<string> {
    if ext in CppExtensions then Some("c++")
    else if ext in ObjcExtensions then Some("objective-c")
    else None
  }

  /** `_guess_language(compiler, args, filename)` */
  function GuessLanguage(compiler: string, args: seq<string>, filename: Option<string>): (r: Option<string>) {
    if "-x" in args then
      var i := UniqueList.IndexOf(args, "-x");
      if i + 1 < |args| then Some(args[i + 1]) else None
    else
      var byName := if filename.Some? then ExtensionLanguage(Extension(filename.value)) else None;
      if byName.None? && EndsWith(compiler, "++") then Some("c++") else byName
  }

  /** The argument after the first "-x" is the language, whatever the file
      name and the compiler; a trailing "-x" gives no language and no other
      guess is tried. */
  lemma GuessLanguageExplicit(compiler: string, args: seq<string>, filename: Option<string>, i: nat)
    requires i < |args| && args[i] == "-x" && "-x" !in args[..i]
    ensures GuessLanguage(compiler, args, filename) == (if i + 1 < |args| then Some(args[i + 1]) else None)
  {
  }

  /** Without "-x": a C++ extension gives "c++" and an Objective-C one
      "objective-c", whatever the compiler; with neither, a compiler whose
      name ends in "++" gives "c++", and otherwise there is no guess. */
  lemma GuessLanguageImplicit(compiler: string, args: seq<string>, filename: Option<string>)
    requires "-x" !in args
    ensures var r := GuessLanguage(compiler, args, filename);
      var ext := if filename.Some? then Extension(filename.value) else "";
      (filename.Some? && ext in CppExtensions ==> r == Some("c++")) &&
      (filename.Some? && ext in ObjcExtensions ==> r == Some("objective-c")) &&
      (!(filename.Some? && (ext in CppExtensions || ext in ObjcExtensions)) ==>
        r == (if EndsWith(compiler, "++") then Some("c++") else None))
  {
    assert forall e :: e in CppExtensions ==> e !in ObjcExtensions;
  }

  /** The extension of "stem.ext", for a stem without '/' that does not
      start with a dot. */
  lemma ExtensionOf(stem: string, ext: string)
    requires stem != [] && stem[0] != '.' && '/' !in stem && '.' !in ext && '/' !in ext
    ensures Extension(stem + "." + ext) == ext
  {
    var p := stem + "." + ext;
    assert p[|stem|] == '.';
    assert p[0] == stem[0];
    assert forall k :: |stem| < k < |p| ==> p[k] == ext[k - |stem| - 1];
    assert forall k :: 0 <= k < |p| ==> p[k] != '/';
    var sep := LastIndexOf(p, '/');
    var dot := LastIndexOf(p, '.');
    assert sep == -1;
    assert dot == |stem|;
    assert sep + 1 <= 0 < dot && p[0] != '.';
    assert SplitExt(p) == (p[..dot], p[dot..]);
    assert p[dot..] == "." + ext;
  }

  /** The files of the built-in tests: "myfile.cpp" and the other C++
      extensions give "c++", "myfile.m" and "myfile.mm" give
      "objective-c", for the compiler "clang" called without arguments. */
  lemma GuessLanguageByExtension(stem: string, ext: string)
    requires stem != [] && stem[0] != '.' && '/' !in stem
    requires ext in CppExtensions || ext in ObjcExtensions
    ensures GuessLanguage("clang", ["clang"], Some(stem + "." + ext)) ==
      if ext in CppExtensions then Some("c++") else Some("objective-c")
  {
    assert forall e :: e in CppExtensions + ObjcExtensions ==> '.' !in e && '/' !in e;
    ExtensionOf(stem, ext);
    GuessLanguageImplicit("clang", ["clang"], Some(stem + "." + ext));
  }

  // ---------------------------------------------------------------------------
  // _get_default_flags: `#define` lines

  /** `[\w()]` */
  predicate IsNameChar(c: char) {
    IsWordChar(c) || c == '(' || c == ')'
  }

  const DefineKeyword: string := "#define "

  /** A match of `#define ([\w()]+) (.+)` at index `i`: its two groups. */
  function DefineValueAt(line: string, i: nat): Option<(string, string)> {
    if !OccursAt(line, DefineKeyword, i) then None
    else
      var j := i + |DefineKeyword|;
      var n := RunLength(line, j, IsNameChar);
      var k := j + n;
      if n > 0 && k < |line| && line[k] == ' ' && RunLength(line, k + 1, NotNewline) > 0 then
        Some((line[j..k], line[k + 1..k + 1 + RunLength(line, k + 1, NotNewline)]))
      else None
  }

  /** A match of `#define (\w+)` at index `i`: its group. */
  function DefineNameAt(line: string, i: nat): Option<string> {
    if !OccursAt(line, DefineKeyword, i) then None
    else
      var j := i + |DefineKeyword|;
      var n := RunLength(line, j, IsWordChar);
      if n > 0 then Some(line[j..j + n]) else None
  }

  /** The flags one line of `-dM -E` output gives. */
  function DefineFlag(line: string): (r: seq<string>)
    ensures |r| <= 1 && forall k :: 0 <= k < |r| ==> StartsWith(r[k], "-D")
  {
    var m := FirstMatch(i => DefineValueAt(line, i), 0, |line|);
    if m.Some? then ["-D" + m.value.0 + "=" + m.value.1]
    else
      var m2 := FirstMatch(i => DefineNameAt(line, i), 0, |line|);
      if m2.Some? then ["-D" + m2.value] else []
  }

  /** "#define N V" becomes "-DN=V". */
  lemma DefineWithValue(name: string, value: string)
    requires name != [] && forall k :: 0 <= k < |name| ==> IsNameChar(name[k])
    requires value != [] && '\n' !in value
    ensures DefineFlag(DefineKeyword + name + " " + value) == ["-D" + name + "=" + value]
  {
    var line := DefineKeyword + name + " " + value;
    var j := |DefineKeyword|;
    var k := j + |name|;
    assert line[..j] == DefineKeyword;
    assert OccursAt(line, DefineKeyword, 0);
    assert line[j..k] == name;
    assert line[k] == ' ';
    assert line[k + 1..] == value;
    RunLengthExact(line, j, |name|, IsNameChar);
    RunLengthExact(line, k + 1, |value|, NotNewline);
    assert |line| == k + 1 + |value|;
    assert RunLength(line, j, IsNameChar) == |name|;
    assert !IsNameChar(' ');
    assert RunLength(line, k + 1, NotNewline) == |value|;
    assert line[k + 1..k + 1 + |value|] == value;
    FirstMatchAt(i => DefineValueAt(line, i), 0, 0, |line|);
  }

  /** "#define N" becomes "-DN". */
  lemma DefineWithoutValue(name: string)
    requires name != [] && forall k :: 0 <= k < |name| ==> IsWordChar(name[k])
    ensures DefineFlag(DefineKeyword + name) == ["-D" + name]
  {
    var line := DefineKeyword + name;
    var j := |DefineKeyword|;
    assert line[..j] == DefineKeyword && line[j..] == name;
    assert OccursAt(line, DefineKeyword, 0);
    RunLengthExact(line, j, |name|, IsWordChar);
    RunLengthExact(line, j, |name|, IsNameChar);
    forall i | 0 < i <= |line| ensures !OccursAt(line, DefineKeyword, i) {
      NoKeywordAfterStart(name, i);
    }
    FirstMatchNone(i => DefineValueAt(line, i), 0, |line|);
    assert line[j..j + |name|] == name;
    FirstMatchAt(i => DefineNameAt(line, i), 0, 0, |line|);
  }

  /** "#define " + a word holds no second "#define ". */
  lemma NoKeywordAfterStart(name: string, i: nat)
    requires forall k :: 0 <= k < |name| ==> IsWordChar(name[k])
    requires 0 < i
    ensures !OccursAt(DefineKeyword + name, DefineKeyword, i)
  {
    var line := DefineKeyword + name;
    if OccursAt(line, DefineKeyword, i) {
      assert line[i..i + |DefineKeyword|][0] == line[i];
      KeywordHashFirst();
    }
  }

  lemma KeywordHashFirst()
    ensures DefineKeyword[0] == '#'
    ensures forall k :: 1 <= k < |DefineKeyword| ==> DefineKeyword[k] != '#'
  {
  }

  /** A line without "#define " gives no flag. */
  lemma NoDefine(line: string)
    requires !Contains(line, DefineKeyword)
    ensures DefineFlag(line) == []
  {
    FirstMatchNone(i => DefineValueAt(line, i), 0, |line|);
    FirstMatchNone(i => DefineNameAt(line, i), 0, |line|);
  }

  /** The built-in defines read from the `-dM -E` output. */
  function ParseDefines(output: string): seq<string> {
    ConcatMap(DefineFlag, SplitLines(output))
  }

  /** The loop of `_get_default_flags` over the output lines. */
  method DefinesFromOutput(output: string) returns (result: seq<string>)
    ensures result == ParseDefines(output)
  {
    var lines := SplitLines(output);
    result := [];
    var i := 0;
    while i < |lines|
      invariant 0 <= i <= |lines|
      invariant result == ConcatMap(DefineFlag, lines[..i])
    {
      var line := lines[i];
      ConcatMapSnoc(DefineFlag, lines, i);
      var m := FirstMatch(k => DefineValueAt(line, k), 0, |line|);
      if m.Some? {
        result := result + ["-D" + m.value.0 + "=" + m.value.1];
      } else {
        var m2 := FirstMatch(k => DefineNameAt(line, k), 0, |line|);
        if m2.Some? {
          result := result + ["-D" + m2.value];
        }
      }
      i := i + 1;
    }
    assert lines[..i] == lines;
  }

  // ---------------------------------------------------------------------------
  // _get_default_include_paths

  /** The three markers of the `-Wp -v -E` output. */
  datatype Markers = Markers(systemStart: string, quoteStart: string, end: string)

  const SearchMarkers: Markers :=
    Markers("#include <...> search starts here:", "#include \"...\" search starts here:", "End of search list.")

  predicate IsStart(mk: Markers, line: string) {
    Contains(line, mk.systemStart) || Contains(line, mk.quoteStart)
  }

  /** "-I" and the line without its leading whitespace: `\s*(.*)$`. */
  function IncludeFlagOf(line: string): string {
    "-I" + LStripWs(line)
  }

  /** The include flags from the lines still to visit, `pick` telling
      whether a start marker was seen. */
  function IncludePathsFrom(mk: Markers, lines: seq<string>, pick: bool): (r: seq<string>)
    decreases |lines|
  {
    if lines == [] then []
    else if IsStart(mk, lines[0]) then IncludePathsFrom(mk, lines[1..], true)
    else if Contains(lines[0], mk.end) then []
    else (if pick then [IncludeFlagOf(lines[0])] else []) + IncludePathsFrom(mk, lines[1..], pick)
  }

  /** Every include path flag starts with "-I". */
  lemma {:induction false} IncludePathsAreFlags(mk: Markers, lines: seq<string>, pick: bool)
    ensures forall k :: 0 <= k < |IncludePathsFrom(mk, lines, pick)| ==> StartsWith(IncludePathsFrom(mk, lines, pick)[k], "-I")
    decreases |lines|
  {
    if lines != [] {
      IncludePathsAreFlags(mk, lines[1..], pick);
      IncludePathsAreFlags(mk, lines[1..], true);
    }
  }

  predicate Plain(mk: Markers, line: string) {
    !IsStart(mk, line) && !Contains(line, mk.end)
  }

  /** Lines without markers before a start marker give nothing. */
  lemma {:induction false} IncludePathsSkipPlain(mk: Markers, pre: seq<string>, rest: seq<string>)
    requires forall k :: 0 <= k < |pre| ==> Plain(mk, pre[k])
    ensures IncludePathsFrom(mk, pre + rest, false) == IncludePathsFrom(mk, rest, false)
    decreases |pre|
  {
    if pre != [] {
      var all := pre + rest;
      assert all[0] == pre[0] && Plain(mk, all[0]);
      assert all[1..] == pre[1..] + rest;
      IncludePathsSkipPlain(mk, pre[1..], rest);
    } else {
      assert pre + rest == rest;
    }
  }

  /** A line without markers gives its flag when picking, and nothing otherwise. */
  lemma PlainStep(mk: Markers, lines: seq<string>, pick: bool)
    requires lines != [] && Plain(mk, lines[0])
    ensures IncludePathsFrom(mk, lines, pick) ==
      (if pick then [IncludeFlagOf(lines[0])] else []) + IncludePathsFrom(mk, lines[1..], pick)
  {
  }

  lemma PrependThrough<T>(whole: seq<T>, after: seq<T>, mapped: seq<T>, head: seq<T>, mid: seq<T>, tail: seq<T>)
    requires whole == head + after && after == mid + tail && mapped == head + mid
    ensures whole == mapped + tail
  {
  }

  /** After a start marker, lines without markers each give their flag. */
  lemma {:induction false} IncludePathsBody(mk: Markers, body: seq<string>, rest: seq<string>)
    requires forall k :: 0 <= k < |body| ==> Plain(mk, body[k])
    ensures IncludePathsFrom(mk, body + rest, true) == MapSeq(IncludeFlagOf, body) + IncludePathsFrom(mk, rest, true)
    decreases |body|
  {
    if body != [] {
      var all := body + rest;
      assert all[0] == body[0];
      PlainStep(mk, all, true);
      assert all[1..] == body[1..] + rest;
      IncludePathsBody(mk, body[1..], rest);
      MapSeqCons(IncludeFlagOf, body);
      PrependThrough(IncludePathsFrom(mk, all, true), IncludePathsFrom(mk, all[1..], true),
        MapSeq(IncludeFlagOf, body), [IncludeFlagOf(body[0])], MapSeq(IncludeFlagOf, body[1..]),
        IncludePathsFrom(mk, rest, true));
    } else {
      assert body + rest == rest;
    }
  }

  /** The output block of a `-v` run: the lines strictly between a start
      marker and the end marker, each without its leading whitespace and
      with "-I" before it; nothing after the end marker counts. */
  lemma IncludePathsBlock(mk: Markers, pre: seq<string>, start: string, body: seq<string>, end: string, post: seq<string>)
    requires forall k :: 0 <= k < |pre| ==> Plain(mk, pre[k])
    requires IsStart(mk, start)
    requires forall k :: 0 <= k < |body| ==> Plain(mk, body[k])
    requires !IsStart(mk, end) && Contains(end, mk.end)
    ensures IncludePathsFrom(mk, pre + [start] + body + [end] + post, false) == MapSeq(IncludeFlagOf, body)
  {
    var tail := [end] + post;
    assert pre + [start] + body + [end] + post == pre + ([start] + (body + tail));
    IncludePathsSkipPlain(mk, pre, [start] + (body + tail));
    assert ([start] + (body + tail))[1..] == body + tail;
    IncludePathsBody(mk, body, tail);
    assert IncludePathsFrom(mk, tail, true) == [];
  }

  /** An end marker before any start marker leaves no include path. */
  lemma IncludePathsEndFirst(mk: Markers, pre: seq<string>, end: string, post: seq<string>)
    requires forall k :: 0 <= k < |pre| ==> Plain(mk, pre[k])
    requires !IsStart(mk, end) && Contains(end, mk.end)
    ensures IncludePathsFrom(mk, pre + [end] + post, false) == []
  {
    assert pre + [end] + post == pre + ([end] + post);
    IncludePathsSkipPlain(mk, pre, [end] + post);
  }

  /** The include paths read from the `-Wp -v -E` output. */
  function ParseIncludePaths(output: string): seq<string> {
    IncludePathsFrom(SearchMarkers, SplitLines(output), false)
  }

  /** The loop of `_get_default_include_paths`, with its `continue`s and its
      `break`. */
  method IncludePathsFromOutput(output: string) returns (result: seq<string>)
    ensures result == ParseIncludePaths(output)
  {
    var lines := SplitLines(output);
    var mk := SearchMarkers;
    result := [];
    var pick := false;
    var i := 0;
    while i < |lines|
      invariant 0 <= i <= |lines|
      invariant result + IncludePathsFrom(mk, lines[i..], pick) == IncludePathsFrom(mk, lines, false)
    {
      var line := lines[i];
      ghost var rest := lines[i + 1..];
      assert lines[i..][0] == line && lines[i..][1..] == rest;
      if Contains(line, mk.systemStart) {
        pick := true;
        i := i + 1;
        continue;
      }
      if Contains(line, mk.quoteStart) {
        pick := true;
        i := i + 1;
        continue;
      }
      if Contains(line, mk.end) {
        break;
      }
      PlainStep(mk, lines[i..], pick);
      if pick {
        AppendAssoc(result, [IncludeFlagOf(line)], IncludePathsFrom(mk, rest, true));
        result := result + [IncludeFlagOf(line)];
      }
      i := i + 1;
    }
  }

  // ---------------------------------------------------------------------------
  // The compiler calls and the memo

  /** The language and standard arguments common to both queries. */
  function QueryArgs(compiler: string, std: Option<string>, language: Option<string>): (r: seq<string>)
    ensures |r| > 0 && r[0] == compiler
  {
    [compiler] + (if language.Some? then ["-x", language.value] else []) +
      (if std.Some? then [StdPrefix + std.value] else [])
  }

  /** The call for the built-in defines. */
  function DefinesCommand(compiler: string, std: Option<string>, language: Option<string>): seq<string> {
    QueryArgs(compiler, std, language) + ["-dM", "-E", "-"]
  }

  /** The call for the built-in include paths. */
  function IncludesCommand(compiler: string, std: Option<string>, language: Option<string>): seq<string> {
    QueryArgs(compiler, std, language) + ["-Wp", "-v", "-E", "-"]
  }

  /** The memo key. */
  datatype Config = Config(compiler: string, std: Option<string>, language: Option<string>)

  /** The configuration `CompilerBuiltIns(args, filename)` queries, None
      without a compiler. */
  function ConfigOf(args: seq<string>, filename: Option<string>): Option<Config> {
    if |args| == 0 then None
    else Some(Config(args[0], GuessedStd(args), GuessLanguage(args[0], args, filename)))
  }

  /** The defines and include paths of a configuration: the memo's, or the
      compiler's answers. */
  function Answers(cfg: Config, entries: map<Config, (seq<string>, seq<string>)>, run: seq<string> -> string): (seq<string>, seq<string>) {
    if cfg in entries then entries[cfg]
    else (ParseDefines(run(DefinesCommand(cfg.compiler, cfg.std, cfg.language))),
          ParseIncludePaths(run(IncludesCommand(cfg.compiler, cfg.std, cfg.language))))
  }

  /** `CompilerBuiltIns(args, filename).flags` when the memo holds
      `entries` before: nothing without a compiler, otherwise the defines
      and then the include paths of its configuration. */
  function BuiltInFlags(args: seq<string>, filename: Option<string>, entries: map<Config, (seq<string>, seq<string>)>,
                        run: seq<string> -> string): seq<string> {
    match ConfigOf(args, filename)
    case None => []
    case Some(cfg) => Answers(cfg, entries, run).0 + Answers(cfg, entries, run).1
  }

  /** The memo after `CompilerBuiltIns(args, filename)`: a configuration
      asked for the first time is recorded with the compiler's answers. */
  function MemoAfter(args: seq<string>, filename: Option<string>, entries: map<Config, (seq<string>, seq<string>)>,
                     run: seq<string> -> string): (r: map<Config, (seq<string>, seq<string>)>)
    ensures entries.Keys <= r.Keys
    ensures forall cfg :: cfg in entries ==> r[cfg] == entries[cfg]
    ensures ConfigOf(args, filename).Some? ==> ConfigOf(args, filename).value in r
  {
    match ConfigOf(args, filename)
    case None => entries
    case Some(cfg) => if cfg in entries then entries else entries[cfg := Answers(cfg, entries, run)]
  }

  /** `CompilerBuiltIns.__cache`, a class attribute shared by every object. */
  class BuiltInsCache {
    var entries: map<Config, (seq<string>, seq<string>)>

    constructor ()
      ensures entries == map[]
    {
      entries := map[];
    }
  }

  /** `CompilerBuiltIns` */
  class BuiltIns {
    var defines: seq<string>
    var includePaths: seq<string>
    var compiler: Option<string>
    var std: Option<string>
    var language: Option<string>

    /** `CompilerBuiltIns(args, filename)` with `args` already a list: the
        compiler is only queried for a configuration not in the memo, which
        then records the answer. */
    constructor (args: seq<string>, filename: Option<string>, cache: BuiltInsCache, run: seq<string> -> string)
      modifies cache
      ensures compiler == (if |args| > 0 then Some(args[0]) else None)
      ensures std == GuessedStd(args)
      ensures compiler.None? ==>
        defines == [] && includePaths == [] && language.None? && cache.entries == old(cache.entries)
      ensures compiler.Some? ==>
        var cfg := Config(compiler.value, std, GuessLanguage(compiler.value, args, filename));
        language == cfg.language &&
        if cfg in old(cache.entries) then
          (defines, includePaths) == old(cache.entries)[cfg] && cache.entries == old(cache.entries)
        else
          defines == ParseDefines(run(DefinesCommand(cfg.compiler, cfg.std, cfg.language))) &&
          includePaths == ParseIncludePaths(run(IncludesCommand(cfg.compiler, cfg.std, cfg.language))) &&
          cache.entries == old(cache.entries)[cfg := (defines, includePaths)]
      ensures Flags() == BuiltInFlags(args, filename, old(cache.entries), run)
      ensures cache.entries == MemoAfter(args, filename, old(cache.entries), run)
    {
      var c, s := GuessCompiler(args);
      var ds: seq<string> := [];
      var incs: seq<string> := [];
      var lang: Option<string> := None;
      if c.Some? {
        lang := GuessLanguage(c.value, args, filename);
        var cfg := Config(c.value, s, lang);
        if cfg in cache.entries {
          ds := cache.entries[cfg].0;
          incs := cache.entries[cfg].1;
        } else {
          ds := DefinesFromOutput(run(DefinesCommand(c.value, s, lang)));
          incs := IncludePathsFromOutput(run(IncludesCommand(c.value, s, lang)));
          cache.entries := cache.entries[cfg := (ds, incs)];
        }
      }
      defines := ds;
      includePaths := incs;
      compiler := c;
      std := s;
      language := lang;
    }

    /** `flags`: the defines, then the include paths. */
    function Flags(): (r: seq<string>)
      reads this
      ensures |r| == |defines| + |includePaths|
      ensures r[..|defines|] == defines && r[|defines|..] == includePaths
    {
      defines + includePaths
    }
  }
}
