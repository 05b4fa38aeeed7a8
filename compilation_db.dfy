/** plugin/flags_sources/compilation_db.py: flags from a
    `compile_commands.json` database, with the header-to-source lookup and
    the cache of parsed databases. */
module CompilationDatabase {
  import opened Wrappers
  import opened Strings
  import opened PyPath
  import opened Collections
  import opened UniqueList
  import opened FlagsSources
  import opened OrderedDicts
  import Tools

  /** `CompilationDb._FILE_NAME` */
  const DatabaseName: string := "compile_commands.json"

  /** The key of the merged flags of all files. */
  const AllTag: string := "all"

  // ---------------------------------------------------------------------------
  // filter_bad_arguments

  /** What the argument loop keeps from position `i` on; `skip` is the
      `skip_next` flag. */
  function FilteredFrom(args: seq<string>, i: nat, skip: bool): seq<string>
    requires i <= |args|
    decreases |args| - i
  {
    if i == |args| then []
    else if skip then FilteredFrom(args, i + 1, false)
    else if i == 0 || i == |args| - 1 || args[i] == "-c" then FilteredFrom(args, i + 1, false)
    else if args[i] == "-o" then FilteredFrom(args, i + 1, true)
    else [args[i]] + FilteredFrom(args, i + 1, false)
  }

  /** `CompilationDb.filter_bad_arguments(argument_list)` as a value. */
  function Filtered(args: seq<string>): seq<string> {
    FilteredFrom(args, 0, false)
  }

  /** `CompilationDb.filter_bad_arguments(argument_list)` */
  method FilterBadArguments(args: seq<string>) returns (newArgs: seq<string>)
    ensures newArgs == Filtered(args)
  {
    newArgs := [];
    var skipNext := false;
    var i := 0;
    while i < |args|
      invariant 0 <= i <= |args|
      invariant newArgs + FilteredFrom(args, i, skipNext) == Filtered(args)
    {
      var argument := args[i];
      if skipNext {
        skipNext := false;
      } else if i == 0 || i == |args| - 1 || argument == "-c" {
      } else if argument == "-o" {
        skipNext := true;
      } else {
        assert newArgs + ([argument] + FilteredFrom(args, i + 1, false)) ==
          (newArgs + [argument]) + FilteredFrom(args, i + 1, false);
        newArgs := newArgs + [argument];
      }
      i := i + 1;
    }
    assert newArgs + [] == newArgs;
  }

  /** Neither "-c" nor "-o" survives the filter. */
  lemma {:induction false} FilteredFromDropsCompileAndOutput(args: seq<string>, i: nat, skip: bool)
    requires i <= |args|
    ensures "-c" !in FilteredFrom(args, i, skip) && "-o" !in FilteredFrom(args, i, skip)
    decreases |args| - i
  {
    if i < |args| {
      FilteredFromDropsCompileAndOutput(args, i + 1, false);
      FilteredFromDropsCompileAndOutput(args, i + 1, true);
    }
  }

  /** `a` is `b` with some elements left out, the rest in their order. */
  predicate IsSubsequence<T(==)>(a: seq<T>, b: seq<T>)
    decreases |b|
  {
    if a == [] then true
    else if b == [] then false
    else (a[0] == b[0] && IsSubsequence(a[1..], b[1..])) || IsSubsequence(a, b[1..])
  }

  /** Leaving out the head of `b` keeps a subsequence of its tail one of `b`. */
  lemma SubsequenceDropHead<T>(a: seq<T>, b: seq<T>)
    requires b != [] && IsSubsequence(a, b[1..])
    ensures IsSubsequence(a, b)
  {
  }

  /** Keeping the head of `b` in front of a subsequence of its tail. */
  lemma SubsequenceKeepHead<T>(a: seq<T>, b: seq<T>)
    requires b != [] && IsSubsequence(a, b[1..])
    ensures IsSubsequence([b[0]] + a, b)
  {
    assert ([b[0]] + a)[1..] == a;
  }

  lemma {:induction false} FilteredFromSubsequence(args: seq<string>, i: nat, skip: bool)
    requires 1 <= i <= |args| - 1
    ensures IsSubsequence(FilteredFrom(args, i, skip), args[i..|args| - 1])
    decreases |args| - i
  {
    var n := |args|;
    if i < n - 1 {
      var b := args[i..n - 1];
      assert b[0] == args[i] && b[1..] == args[i + 1..n - 1];
      if skip || args[i] == "-c" {
        FilteredFromSubsequence(args, i + 1, false);
        SubsequenceDropHead(FilteredFrom(args, i + 1, false), b);
      } else if args[i] == "-o" {
        FilteredFromSubsequence(args, i + 1, true);
        SubsequenceDropHead(FilteredFrom(args, i + 1, true), b);
      } else {
        FilteredFromSubsequence(args, i + 1, false);
        SubsequenceKeepHead(FilteredFrom(args, i + 1, false), b);
      }
    } else {
      assert FilteredFrom(args, i + 1, false) == [];
    }
  }

  /** The filter always drops the first argument (the compiler) and the
      last one (the source file), and keeps the others it keeps in their
      order. */
  lemma FilteredSubsequence(args: seq<string>)
    ensures |args| < 2 ==> Filtered(args) == []
    ensures |args| >= 2 ==> IsSubsequence(Filtered(args), args[1..|args| - 1])
  {
    if |args| >= 2 {
      FilteredFromSubsequence(args, 1, false);
    } else if |args| == 1 {
      assert FilteredFrom(args, 1, false) == [];
    }
  }

  /** The filter output never holds "-c" or "-o". */
  lemma FilteredDropsCompileAndOutput(args: seq<string>)
    ensures "-c" !in Filtered(args) && "-o" !in Filtered(args)
  {
    FilteredFromDropsCompileAndOutput(args, 0, false);
  }

  lemma {:induction false} FilteredFromPlain(args: seq<string>, i: nat)
    requires 1 <= i <= |args| - 1
    requires forall k :: 1 <= k < |args| - 1 ==> args[k] != "-c" && args[k] != "-o"
    ensures FilteredFrom(args, i, false) == args[i..|args| - 1]
    decreases |args| - i
  {
    if i < |args| - 1 {
      FilteredFromPlain(args, i + 1);
      assert args[i..|args| - 1] == [args[i]] + args[i + 1..|args| - 1];
    }
  }

  /** Without "-c" and "-o" between them, exactly the first and the last
      arguments are dropped. */
  lemma FilteredPlain(args: seq<string>)
    requires |args| >= 2
    requires forall k :: 1 <= k < |args| - 1 ==> args[k] != "-c" && args[k] != "-o"
    ensures Filtered(args) == args[1..|args| - 1]
  {
    FilteredFromPlain(args, 1);
  }

  /** An "-o" the loop reaches takes the argument after it along. */
  lemma FilteredOutputPair(args: seq<string>, i: nat)
    requires 1 <= i && i + 2 < |args| && args[i] == "-o"
    ensures FilteredFrom(args, i, false) == FilteredFrom(args, i + 2, false)
  {
  }

  /** The argument list of a CMake-generated entry keeps only its include flag. */
  lemma FilteredCMakeExample()
    ensures Filtered(["/usr/bin/c++", "-I/lib_include_dir", "-o", "CMakeFiles/main_obj.o", "-c",
                      "/home/user/dummy_main.cpp"]) == ["-I/lib_include_dir"]
  {
    var args := ["/usr/bin/c++", "-I/lib_include_dir", "-o", "CMakeFiles/main_obj.o", "-c",
                 "/home/user/dummy_main.cpp"];
    assert args[1] != "-c" && args[1] != "-o";
    assert args[2] == "-o";
    assert args[4] == "-c";
  }

  // ---------------------------------------------------------------------------
  // _get_templates

  const StampTemplate: string := "{stamp}.*"
  const AnyTemplate: string := "*.*"

  /** A directory template ("dir/") stands for the file's stamp and for any
      file in that directory. */
  function ExpandTemplate(t: string): seq<string> {
    if EndsWith(t, "/") || EndsWith(t, "\\") then [t + StampTemplate, t + AnyTemplate] else [t]
  }

  function ExpandedTemplates(templates: seq<string>): seq<string> {
    ConcatMap(ExpandTemplate, templates)
  }

  /** Templates without a trailing separator are kept as they are. */
  lemma {:induction false} ExpandedTemplatesPlain(templates: seq<string>)
    requires forall k :: 0 <= k < |templates| ==> !EndsWith(templates[k], "/") && !EndsWith(templates[k], "\\")
    ensures ExpandedTemplates(templates) == templates
  {
    if templates != [] {
      var n := |templates| - 1;
      assert forall k :: 0 <= k < n ==> templates[..n][k] == templates[k];
      ExpandedTemplatesPlain(templates[..n]);
      assert templates == templates[..n] + [templates[n]];
    }
  }

  /** `_get_templates()`: the expanded user templates in order, then each
      default template that is not already among them. */
  method GetTemplates(headerToSource: Option<seq<string>>) returns (result: seq<string>)
    ensures var e := ExpandedTemplates(if headerToSource.Some? then headerToSource.value else []);
      result == e + (if StampTemplate in e then [] else [StampTemplate]) + (if AnyTemplate in e then [] else [AnyTemplate])
    ensures StampTemplate in result && AnyTemplate in result
  {
    var templates := if headerToSource.Some? then headerToSource.value else [];
    result := [];
    var i := 0;
    while i < |templates|
      invariant 0 <= i <= |templates|
      invariant result == ExpandedTemplates(templates[..i])
    {
      var template := templates[i];
      ConcatMapSnoc(ExpandTemplate, templates, i);
      if EndsWith(template, "/") || EndsWith(template, "\\") {
        result := result + [template + StampTemplate];
        result := result + [template + AnyTemplate];
      } else {
        result := result + [template];
      }
      i := i + 1;
    }
    assert templates[..i] == templates;
    ghost var e := result;
    var defaults := [StampTemplate, AnyTemplate];
    var j := 0;
    while j < |defaults|
      invariant 0 <= j <= 2
      invariant j == 0 ==> result == e
      invariant j == 1 ==> result == e + (if StampTemplate in e then [] else [StampTemplate])
      invariant j == 2 ==> (result == e + (if StampTemplate in e then [] else [StampTemplate]) +
        (if AnyTemplate in e then [] else [AnyTemplate]))
    {
      if defaults[j] !in result {
        result := result + [defaults[j]];
      }
      j := j + 1;
    }
  }

  // ---------------------------------------------------------------------------
  // _find_related_sources

  /** `template.format(basename=…, stamp=…, ext=…)`: the three named fields
      are substituted and doubled braces stand for one brace. */
  function Format(t: string, basename: string, stamp: string, ext: string): string
    decreases |t|
  {
    if t == [] then []
    else if t[0] == '{' then
      if StartsWith(t, "{{") then "{" + Format(t[2..], basename, stamp, ext)
      else if StartsWith(t, "{basename}") then basename + Format(t[10..], basename, stamp, ext)
      else if StartsWith(t, "{stamp}") then stamp + Format(t[7..], basename, stamp, ext)
      else if StartsWith(t, "{ext}") then ext + Format(t[5..], basename, stamp, ext)
      else [t[0]] + Format(t[1..], basename, stamp, ext)
    else if t[0] == '}' && StartsWith(t, "}}") then "}" + Format(t[2..], basename, stamp, ext)
    else [t[0]] + Format(t[1..], basename, stamp, ext)
  }

  /** A template without braces is its own pattern. */
  lemma {:induction false} FormatNoBraces(t: string, basename: string, stamp: string, ext: string)
    requires '{' !in t && '}' !in t
    ensures Format(t, basename, stamp, ext) == t
    decreases |t|
  {
    if t != [] {
      assert t[0] in t;
      assert forall c :: c in t[1..] ==> c in t;
      FormatNoBraces(t[1..], basename, stamp, ext);
      assert t == [t[0]] + t[1..];
    }
  }

  /** The two default templates: "{stamp}.*" matches the file's stamp with
      any extension, "*.*" any file with an extension. */
  lemma StampTemplateFormat(basename: string, stamp: string, ext: string)
    ensures Format(StampTemplate, basename, stamp, ext) == stamp + ".*"
  {
    var t := StampTemplate;
    assert t[0] == '{' && t[1] == 's';
    assert !StartsWith(t, "{{") && !StartsWith(t, "{basename}");
    assert StartsWith(t, "{stamp}") && t[7..] == ".*";
    FormatNoBraces(".*", basename, stamp, ext);
  }

  lemma AnyTemplateFormat(basename: string, stamp: string, ext: string)
    ensures Format(AnyTemplate, basename, stamp, ext) == "*.*"
  {
    FormatNoBraces(AnyTemplate, basename, stamp, ext);
  }

  /** The glob pattern of one template for `filePath`, in the file's folder. */
  function RelatedPattern(filePath: string, template: string): string {
    var base := Basename(filePath);
    var parts := SplitExt(base);
    NormPath(PathJoin(Dirname(filePath), Format(template, base, parts.0, parts.1)))
  }

  /** The first database key matching the pattern (`fnmatch`, abstracted). */
  function FirstMatchingKey(keys: seq<string>, pattern: string, fnmatch: (string, string) -> bool): (r: Option<string>)
    ensures r.None? <==> forall k :: 0 <= k < |keys| ==> !fnmatch(keys[k], pattern)
    ensures r.Some? ==> exists k :: (0 <= k < |keys| && keys[k] == r.value && fnmatch(r.value, pattern) &&
      forall j :: 0 <= j < k ==> !fnmatch(keys[j], pattern))
  {
    if keys == [] then None
    else if fnmatch(keys[0], pattern) then Some(keys[0])
    else
      var r := FirstMatchingKey(keys[1..], pattern, fnmatch);
      if r.Some? then
        var k :| 0 <= k < |keys[1..]| && keys[1..][k] == r.value && fnmatch(r.value, pattern) &&
          forall j :: 0 <= j < k ==> !fnmatch(keys[1..][j], pattern);
        assert keys[k + 1] == r.value;
        r
      else r
  }

  /** The first key matching the first pattern that matches any key, the
      patterns being `pattern` of each template in turn. */
  function FirstOfPatterns(keys: seq<string>, templates: seq<string>, pattern: string -> string,
                           fnmatch: (string, string) -> bool): (r: Option<string>)
    ensures r.Some? ==> r.value in keys
  {
    if templates == [] then None
    else
      match FirstMatchingKey(keys, pattern(templates[0]), fnmatch)
      case Some(k) => Some(k)
      case None => FirstOfPatterns(keys, templates[1..], pattern, fnmatch)
  }

  lemma {:induction false} FirstOfPatternsNone(keys: seq<string>, templates: seq<string>, pattern: string -> string,
                                               fnmatch: (string, string) -> bool)
    ensures FirstOfPatterns(keys, templates, pattern, fnmatch).None? <==>
      forall t, k :: 0 <= t < |templates| && 0 <= k < |keys| ==> !fnmatch(keys[k], pattern(templates[t]))
  {
    if templates != [] {
      var rest := templates[1..];
      FirstOfPatternsNone(keys, rest, pattern, fnmatch);
      assert forall t :: 1 <= t < |templates| ==> rest[t - 1] == templates[t];
    }
  }

  /** The related source of `filePath`: the first key matching the first
      template that matches any key. */
  function FindRelated(filePath: string, keys: seq<string>, templates: seq<string>,
                       fnmatch: (string, string) -> bool): (r: Option<string>)
    ensures r.Some? ==> r.value in keys
  {
    FirstOfPatterns(keys, templates, t => RelatedPattern(filePath, t), fnmatch)
  }

  /** No template matches any key exactly when there is no related source. */
  lemma FindRelatedNone(filePath: string, keys: seq<string>, templates: seq<string>,
                        fnmatch: (string, string) -> bool)
    ensures FindRelated(filePath, keys, templates, fnmatch).None? <==>
      forall t, k :: 0 <= t < |templates| && 0 <= k < |keys| ==> !fnmatch(keys[k], RelatedPattern(filePath, templates[t]))
  {
    FirstOfPatternsNone(keys, templates, t => RelatedPattern(filePath, t), fnmatch);
  }

  /** The inner loop of `_find_related_sources`: the first key matching
      `pattern`. */
  method FirstMatch(keys: seq<string>, pattern: string, fnmatch: (string, string) -> bool) returns (r: Option<string>)
    ensures r == FirstMatchingKey(keys, pattern, fnmatch)
  {
    var k := 0;
    while k < |keys|
      invariant 0 <= k <= |keys|
      invariant forall j :: 0 <= j < k ==> !fnmatch(keys[j], pattern)
    {
      if fnmatch(keys[k], pattern) {
        ghost var m := FirstMatchingKey(keys, pattern, fnmatch);
        assert m.Some? && m.value == keys[k];
        return Some(keys[k]);
      }
      k := k + 1;
    }
    return None;
  }

  /** `_find_related_sources(file_path, db)`: templates in order, keys in
      the database's order, the first match wins. */
  method FindRelatedSources(filePath: Option<string>, keys: seq<string>, templates: seq<string>,
                            fnmatch: (string, string) -> bool) returns (r: Option<string>)
    ensures filePath.None? || filePath.value == "" ==> r.None?
    ensures filePath.Some? && filePath.value != "" ==> r == FindRelated(filePath.value, keys, templates, fnmatch)
  {
    if filePath.None? || filePath.value == "" {
      return None;
    }
    var file := filePath.value;
    var t := 0;
    while t < |templates|
      invariant 0 <= t <= |templates|
      invariant FindRelated(file, keys, templates, fnmatch) == FindRelated(file, keys, templates[t..], fnmatch)
    {
      var pattern := RelatedPattern(file, templates[t]);
      assert templates[t..][0] == templates[t] && templates[t..][1..] == templates[t + 1..];
      var m := FirstMatch(keys, pattern, fnmatch);
      if m.Some? {
        return m;
      }
      t := t + 1;
    }
    return None;
  }

  // ---------------------------------------------------------------------------
  // _parse_database

  /** A parsed database: the files in insertion order, then "all", and the
      flags of each. */
  type Database = Dict<seq<string>>

  const EmptyDatabase: Database := Dict([], map[])

  /** One entry of the JSON list; "command" is given already split into words. */
  datatype Entry = Entry(file: string, directory: Option<string>, command: Option<seq<string>>,
                         arguments: Option<seq<string>>)

  /** The entry's argument list: "command" first, then "arguments". */
  function EntryArguments(e: Entry): Option<seq<string>> {
    if e.command.Some? then e.command else e.arguments
  }

  /** `argument_list[:-1] + builtins + argument_list[-1:]` */
  function WithBuiltIns(args: seq<string>, builtins: seq<string>): (r: seq<string>)
    ensures args != [] ==> (|r| == |args| + |builtins| && r[|r| - 1] == args[|args| - 1] &&
      r[..|args| - 1] == args[..|args| - 1] && r[|args| - 1..|r| - 1] == builtins)
    ensures args == [] ==> r == builtins
  {
    if args == [] then builtins else args[..|args| - 1] + builtins + [args[|args| - 1]]
  }

  /** What the database parser needs besides the entries: the folder of the
      database file, the include prefixes, whether to ask the target
      compiler for its built-ins, and the built-in flags of
      `CompilerBuiltIns(args, file).flags`. */
  datatype ParseSetup = ParseSetup(folder: string, prefixes: seq<string>, useBuiltins: bool,
                                   builtins: (seq<string>, Option<string>) -> seq<string>)

  /** The key an entry is stored under. An empty file name has no canonical
      path and is stored under None, written here as "", which neither a
      canonical path nor "all" equals. */
  function EntryKey(e: Entry, s: ParseSetup): string {
    match Tools.CanonicalPath(e.file, s.folder)
    case None => ""
    case Some(p) => p
  }

  /** The flags of one entry. */
  function EntryFlags(s: ParseSetup, e: Entry): seq<string> {
    match EntryArguments(e)
    case None => []
    case Some(args) =>
      var full := if s.useBuiltins then WithBuiltIns(args, s.builtins(args, Tools.CanonicalPath(e.file, s.folder))) else args;
      var base := if e.directory.Some? then e.directory.value else s.folder;
      ParsedFlags(base, Filtered(full), s.prefixes)
  }

  /** `parsed_db[key] = flags` for each pair in turn, later ones overwriting. */
  function Stored(kvs: seq<(string, seq<string>)>): Database {
    if kvs == [] then EmptyDatabase
    else
      var n := |kvs| - 1;
      Stored(kvs[..n]).Put(kvs[n].0, kvs[n].1)
  }

  lemma StoredSnoc(kvs: seq<(string, seq<string>)>, kv: (string, seq<string>))
    ensures Stored(kvs + [kv]) == Stored(kvs).Put(kv.0, kv.1)
  {
    assert (kvs + [kv])[..|kvs|] == kvs;
  }

  /** The stored database is well formed, and its keys are exactly the
      keys of the pairs, each listed once in the order of first storing. */
  lemma {:induction false} StoredValid(kvs: seq<(string, seq<string>)>)
    ensures Stored(kvs).Valid()
    ensures forall key :: key in Stored(kvs).values <==> exists k :: 0 <= k < |kvs| && kvs[k].0 == key
  {
    if kvs != [] {
      var n := |kvs| - 1;
      var prev := Stored(kvs[..n]);
      StoredValid(kvs[..n]);
      PutValid(prev, kvs[n].0, kvs[n].1);
      assert Stored(kvs) == prev.Put(kvs[n].0, kvs[n].1);
      forall key
        ensures key in Stored(kvs).values <==> exists k :: 0 <= k < |kvs| && kvs[k].0 == key
      {
        KeyOfSnoc(kvs, kvs[..n], key);
      }
    }
  }

  /** A key is among the pairs exactly when it is among all but the last,
      `pre`, or is the last one's. */
  lemma KeyOfSnoc(kvs: seq<(string, seq<string>)>, pre: seq<(string, seq<string>)>, key: string)
    requires kvs != [] && pre == kvs[..|kvs| - 1]
    ensures (exists k :: 0 <= k < |kvs| && kvs[k].0 == key) <==>
      (exists k :: 0 <= k < |pre| && pre[k].0 == key) || kvs[|kvs| - 1].0 == key
  {
    if exists k :: 0 <= k < |pre| && pre[k].0 == key {
      var k :| 0 <= k < |pre| && pre[k].0 == key;
      assert kvs[k].0 == key;
    }
    if exists k :: 0 <= k < |kvs| && kvs[k].0 == key {
      var k :| 0 <= k < |kvs| && kvs[k].0 == key;
      if k < |pre| {
        assert pre[k].0 == key;
      }
    }
  }

  /** The last pair for a key gives that key its value. */
  lemma {:induction false} StoredLast(kvs: seq<(string, seq<string>)>, k: nat)
    requires k < |kvs|
    requires forall j :: k < j < |kvs| ==> kvs[j].0 != kvs[k].0
    ensures kvs[k].0 in Stored(kvs).values && Stored(kvs).values[kvs[k].0] == kvs[k].1
  {
    var n := |kvs| - 1;
    if k < n {
      assert forall j :: k < j < n ==> kvs[..n][j] == kvs[j];
      StoredLast(kvs[..n], k);
      assert kvs[..n][k] == kvs[k];
    }
  }

  /** The key and the flags one entry contributes. */
  function EntryPair(s: ParseSetup, e: Entry): (string, seq<string>) {
    (EntryKey(e, s), EntryFlags(s, e))
  }

  /** The per-file entries of the whole list, later ones overwriting. */
  function Collected(s: ParseSetup, entries: seq<Entry>): Database {
    Stored(MapSeq(e => EntryPair(s, e), entries))
  }

  predicate AllUsable(entries: seq<Entry>) {
    forall k :: 0 <= k < |entries| ==> EntryArguments(entries[k]).Some?
  }

  /** `_parse_database(database_file)` over the loaded JSON list. */
  function ParsedDatabase(s: ParseSetup, entries: seq<Entry>): (r: Option<Database>)
  {
    if entries == [] || !AllUsable(entries) then None
    else Some(Collected(s, entries).Put(AllTag, Unique(ConcatMap(e => EntryFlags(s, e), entries))))
  }

  /** An empty list, or any entry with neither "command" nor "arguments",
      gives no database. */
  lemma ParsedDatabaseNone(s: ParseSetup, entries: seq<Entry>)
    ensures ParsedDatabase(s, entries).None? <==>
      entries == [] || exists k :: 0 <= k < |entries| && EntryArguments(entries[k]).None?
  {
  }

  /** The "all" entry is the order-preserving union, without repeats, of the
      flags of every entry. */
  lemma {:induction false} ParsedDatabaseAll(s: ParseSetup, entries: seq<Entry>, db: Database)
    requires ParsedDatabase(s, entries) == Some(db)
    ensures db.Valid() && AllTag in db.values
    ensures var all := ConcatMap(e => EntryFlags(s, e), entries);
      db.values[AllTag] == Unique(all) && NoDups(db.values[AllTag]) &&
      (forall x :: x in db.values[AllTag] <==> x in all)
  {
    var all := ConcatMap(e => EntryFlags(s, e), entries);
    UniqueSpec(all);
    StoredValid(MapSeq(e => EntryPair(s, e), entries));
    PutValid(Collected(s, entries), AllTag, Unique(all));
  }

  /** The last entry for a file (other than "all") gives that file its flags. */
  lemma ParsedDatabaseEntry(s: ParseSetup, entries: seq<Entry>, db: Database, k: nat)
    requires ParsedDatabase(s, entries) == Some(db) && k < |entries| && EntryKey(entries[k], s) != AllTag
    requires forall j :: k < j < |entries| ==> EntryKey(entries[j], s) != EntryKey(entries[k], s)
    ensures EntryKey(entries[k], s) in db.values && db.values[EntryKey(entries[k], s)] == EntryFlags(s, entries[k])
  {
    var f := e => EntryPair(s, e);
    var kvs := MapSeq(f, entries);
    var key := EntryKey(entries[k], s);
    forall j | k <= j < |entries|
      ensures kvs[j] == EntryPair(s, entries[j])
    {
      MapSeqIndex(f, entries, j);
    }
    assert kvs[k].0 == key;
    StoredLast(kvs, k);
    assert db == Stored(kvs).Put(AllTag, Unique(ConcatMap(e => EntryFlags(s, e), entries)));
  }

  /** Every file the database lists, besides "all", comes from an entry. */
  lemma ParsedDatabaseKeys(s: ParseSetup, entries: seq<Entry>, db: Database, key: string)
    requires ParsedDatabase(s, entries) == Some(db) && key != AllTag
    ensures key in db.values <==>
      exists k :: 0 <= k < |entries| && EntryKey(entries[k], s) == key
  {
    var f := e => EntryPair(s, e);
    var kvs := MapSeq(f, entries);
    forall j | 0 <= j < |entries|
      ensures kvs[j] == EntryPair(s, entries[j])
    {
      MapSeqIndex(f, entries, j);
    }
    StoredValid(kvs);
  }

  /** One pass of the entry loop: the key and the flags of a usable entry. */
  method ParseEntry(s: ParseSetup, entry: Entry) returns (kv: (string, seq<string>))
    requires EntryArguments(entry).Some?
    ensures kv == EntryPair(s, entry)
  {
    var filePath := EntryKey(entry, s);
    var basePath := if entry.directory.Some? then entry.directory.value else s.folder;
    var argumentList := if entry.command.Some? then entry.command.value else entry.arguments.value;
    if s.useBuiltins {
      argumentList := WithBuiltIns(argumentList, s.builtins(argumentList, Tools.CanonicalPath(entry.file, s.folder)));
    }
    argumentList := FilterBadArguments(argumentList);
    var flags := ParseFlags(basePath, argumentList, s.prefixes);
    return (filePath, flags);
  }

  /** `CompilationDb._parse_database`: the loop over the JSON entries. */
  method ParseDatabase(s: ParseSetup, entries: seq<Entry>) returns (db: Option<Database>)
    ensures db == ParsedDatabase(s, entries)
  {
    if entries == [] {
      return None;
    }
    var parsed := EmptyDatabase;
    var unique: seq<string> := [];
    var f := e => EntryFlags(s, e);
    var p := e => EntryPair(s, e);
    var i := 0;
    while i < |entries|
      invariant 0 <= i <= |entries|
      invariant AllUsable(entries[..i])
      invariant parsed == Stored(MapSeq(p, entries[..i]))
      invariant unique == Unique(ConcatMap(f, entries[..i]))
    {
      var entry := entries[i];
      if entry.command.None? && entry.arguments.None? {
        assert !AllUsable(entries);
        return None;
      }
      var kv := ParseEntry(s, entry);
      ghost var pre := MapSeq(p, entries[..i]);
      MapSeqSnoc(p, entries, i);
      StoredSnoc(pre, kv);
      parsed := parsed.Put(kv.0, kv.1);
      ConcatMapSnoc(f, entries, i);
      ExtendUnique(ConcatMap(f, entries[..i]), kv.1);
      unique := Extend(unique, kv.1);
      AllUsableSnoc(entries, i);
      i := i + 1;
    }
    assert entries[..i] == entries;
    db := Some(parsed.Put(AllTag, unique));
  }

  lemma AllUsableSnoc(entries: seq<Entry>, i: nat)
    requires i < |entries| && AllUsable(entries[..i]) && EntryArguments(entries[i]).Some?
    ensures AllUsable(entries[..i + 1])
  {
    assert forall k :: 0 <= k < i ==> entries[..i + 1][k] == entries[..i][k];
  }

  // ---------------------------------------------------------------------------
  // get_flags and the cache

  /** A value of the database cache: the database path a file was found in,
      or a parsed database (None when parsing failed). */
  datatype CacheValue = DbPath(path: string) | Parsed(db: Option<Database>)

  /** What `get_flags` gives: no flags (None), flags, or an exception. */
  datatype FlagsLookup = NoFlags | FlagsFound(flags: seq<string>) | Raised

  /** The fixed inputs of one `get_flags` call besides the file: the path of
      the database `File.search` finds (None when there is none), the
      modification times, what parsing that database would give, the
      header-to-source templates and `fnmatch`. */
  datatype Query = Query(found: Option<string>, mtime: string -> real, parsed: Option<Database>,
                         templates: seq<string>, fnmatch: (string, string) -> bool)

  /** The state `get_flags` reads and writes: the database cache and the
      modification-time cache of `File`. */
  datatype DbState = DbState(cache: map<string, CacheValue>, times: map<string, real>)

  /** The path `cached_db_path` ends up holding, or Raised's cause: a cached
      value that is a non-empty database where a path was expected. */
  function CachedDbPath(cache: map<string, CacheValue>, file: Option<string>, current: string): Result<Option<string>> {
    if current in cache then Ok(Some(current))
    else
      var c: Option<CacheValue> := CachedFrom(cache, file);
      match c
      case Some(DbPath(p)) => Ok(Some(p))
      case Some(Parsed(Some(d))) => if d.values == map[] then Ok(None) else Err("not a path")
      case _ => Ok(None)
  }

  /** The database to use and the state after loading it: the cached one
      when its path is the current one and its time is unchanged, else the
      one just parsed, which replaces the cached one. */
  function LoadDb(st: DbState, file: Option<string>, current: string, q: Query): Result<(Option<Database>, DbState)> {
    match CachedDbPath(st.cache, file, current)
    case Err(e) => Err(e)
    case Ok(cached) =>
      var check := if cached.Some? then Tools.CheckUnchanged(st.times, cached.value, q.mtime(cached.value))
                   else (false, st.times);
      if cached == Some(current) && check.0 then
        if current in st.cache && st.cache[current].Parsed? then Ok((st.cache[current].db, DbState(st.cache, check.1)))
        else Err("KeyError")
      else if current == "" then Ok((None, DbState(st.cache, check.1)))
      else
        var dropped := if cached.Some? && cached.value != "" && cached.value in st.cache then st.cache - {cached.value}
                       else st.cache;
        Ok((q.parsed, DbState(dropped[current := Parsed(q.parsed)], check.1)))
  }

  /** A database parsed before whose time is unchanged is reused, and
      nothing changes. */
  lemma LoadDbCached(st: DbState, file: Option<string>, current: string, q: Query)
    requires current != "" && current in st.cache && st.cache[current].Parsed?
    requires current in st.times && st.times[current] == q.mtime(current)
    ensures LoadDb(st, file, current, q) == Ok((st.cache[current].db, st))
  {
  }

  /** A database parsed before whose time changed is parsed again. */
  lemma LoadDbChanged(st: DbState, file: Option<string>, current: string, q: Query)
    requires current != "" && current in st.cache
    requires !(current in st.times && st.times[current] == q.mtime(current))
    ensures LoadDb(st, file, current, q) ==
      Ok((q.parsed, DbState(st.cache[current := Parsed(q.parsed)], st.times[current := q.mtime(current)])))
  {
    assert (st.cache - {current})[current := Parsed(q.parsed)] == st.cache[current := Parsed(q.parsed)];
  }

  /** The related source `get_flags` falls back to: only for a file the
      database does not list, and only when the database lists the match. */
  function RelatedEntry(d: Database, file: Option<string>, q: Query): (r: Option<string>)
    ensures r.Some? ==> file.Some? && file.value !in d.values && r.value != "" && r.value in d.values
  {
    if file.Some? && file.value != "" && file.value !in d.values then
      var related := FindRelated(file.value, d.keys, q.templates, q.fnmatch);
      if related.Some? && related.value != "" && related.value in d.values then related else None
    else None
  }

  /** The answer from a loaded, non-empty database and the final state. */
  function Answer(d: Database, file: Option<string>, current: string, st1: DbState, q: Query): (FlagsLookup, DbState) {
    var rel := RelatedEntry(d, file, q);
    var d2 := if rel.Some? then d.Put(file.value, d.values[rel.value]) else d;
    var file2 := if rel.Some? then rel else file;
    var cache2 := if rel.Some? then st1.cache[current := Parsed(Some(d2))] else st1.cache;
    if file2.Some? && file2.value != "" && file2.value in d2.values then
      (FlagsFound(d2.values[file2.value]),
       DbState(cache2[file2.value := DbPath(current)], st1.times[current := q.mtime(current)]))
    else if AllTag in d2.values then (FlagsFound(d2.values[AllTag]), DbState(cache2, st1.times))
    else (Raised, DbState(cache2, st1.times))
  }

  /** `CompilationDb.get_flags(file_path)` as intended, from the search scope
      on: the lookup and the new state. `q.found` is what `File.search` finds
      in the scope the missing `_update_search_scope` was meant to give. */
  function GetFlagsModel(st: DbState, rawFile: Option<string>, q: Query): (FlagsLookup, DbState) {
    var file := if rawFile.Some? then Tools.CanonicalPath(rawFile.value, "") else None;
    if q.found.None? then (NoFlags, st)
    else
      match LoadDb(st, file, q.found.value, q)
      case Err(_) => (Raised, st)
      case Ok(loaded) =>
        if loaded.0.None? || loaded.0.value.values == map[] then (NoFlags, loaded.1)
        else Answer(loaded.0.value, file, q.found.value, loaded.1, q)
  }

  /** `get_flags` as written: its first statement calls
      `self._update_search_scope`, which neither `CompilationDb` nor its base
      `FlagsSource` defines, so every call raises `AttributeError` before the
      file, the cache or the database is looked at. */
  function GetFlagsAsWritten(st: DbState, rawFile: Option<string>, q: Query): (r: (FlagsLookup, DbState))
    ensures r.0.Raised? && r.1 == st
  {
    (Raised, st)
  }

  /** What the missing method changes: as written every call raises and
      leaves the caches alone, while the intended reading above answers a
      file without a database with None instead of raising. */
  lemma GetFlagsAsWrittenRaises(st: DbState, rawFile: Option<string>, q: Query)
    ensures GetFlagsAsWritten(st, rawFile, q) == (Raised, st)
    ensures q.found.None? ==> GetFlagsModel(st, rawFile, q) == (NoFlags, st) != GetFlagsAsWritten(st, rawFile, q)
  {
  }

  /** Without a database file there are no flags and nothing changes. */
  lemma GetFlagsNoDatabase(st: DbState, rawFile: Option<string>, q: Query)
    requires q.found.None?
    ensures GetFlagsModel(st, rawFile, q) == (NoFlags, st)
  {
  }

  /** A database parsed before and unchanged since is not parsed again: the
      answer and the new state do not depend on what parsing would give. */
  lemma GetFlagsCachedNotReparsed(st: DbState, rawFile: Option<string>, q: Query, otherParse: Option<Database>)
    requires q.found.Some? && q.found.value != "" && q.found.value in st.cache
    requires q.found.value in st.times && st.times[q.found.value] == q.mtime(q.found.value)
    requires st.cache[q.found.value].Parsed?
    ensures GetFlagsModel(st, rawFile, q) == GetFlagsModel(st, rawFile, q.(parsed := otherParse))
  {
    var file := if rawFile.Some? then Tools.CanonicalPath(rawFile.value, "") else None;
    var q2 := q.(parsed := otherParse);
    var db := st.cache[q.found.value].db;
    LoadDbCached(st, file, q.found.value, q);
    LoadDbCached(st, file, q.found.value, q2);
    if db.Some? && db.value.values != map[] {
      AnswerIgnoresParsed(db.value, file, q.found.value, st, q, otherParse);
    }
  }

  /** What `get_flags` answers from a loaded database does not depend on
      what parsing the database file would give. */
  lemma AnswerIgnoresParsed(d: Database, file: Option<string>, current: string, st1: DbState, q: Query, p: Option<Database>)
    ensures Answer(d, file, current, st1, q) == Answer(d, file, current, st1, q.(parsed := p))
  {
    var q2 := q.(parsed := p);
    assert q2.templates == q.templates && q2.fnmatch == q.fnmatch && q2.mtime == q.mtime;
    assert RelatedEntry(d, file, q) == RelatedEntry(d, file, q2);
  }

  /** A changed database that fails to parse gives no flags, and the cache
      remembers the failure. */
  lemma GetFlagsChangedUnparsable(st: DbState, rawFile: Option<string>, q: Query)
    requires q.found.Some? && q.found.value != "" && q.found.value in st.cache
    requires !(q.found.value in st.times && st.times[q.found.value] == q.mtime(q.found.value))
    requires q.parsed.None?
    ensures GetFlagsModel(st, rawFile, q) ==
      (NoFlags, DbState(st.cache[q.found.value := Parsed(None)], st.times[q.found.value := q.mtime(q.found.value)]))
  {
    var file := if rawFile.Some? then Tools.CanonicalPath(rawFile.value, "") else None;
    LoadDbChanged(st, file, q.found.value, q);
  }

  /** A file the database lists gets its own flags; the cache then maps the
      file to the database, and the database's time is recorded. */
  lemma GetFlagsOwnEntry(st: DbState, rawFile: Option<string>, q: Query, d: Database)
    requires q.found.Some? && q.found.value != "" && q.found.value in st.cache && st.cache[q.found.value] == Parsed(Some(d))
    requires q.found.value in st.times && st.times[q.found.value] == q.mtime(q.found.value)
    requires rawFile.Some? && rawFile.value != ""
    requires Tools.CanonicalPath(rawFile.value, "").value in d.values
    ensures var file := Tools.CanonicalPath(rawFile.value, "").value;
      var r := GetFlagsModel(st, rawFile, q);
      r.0 == FlagsFound(d.values[file]) && r.1.cache == st.cache[file := DbPath(q.found.value)] &&
      r.1.times == st.times
  {
    var file := Tools.CanonicalPath(rawFile.value, "");
    LoadDbCached(st, file, q.found.value, q);
    assert RelatedEntry(d, file, q) == None;
    assert st.times[q.found.value := q.mtime(q.found.value)] == st.times;
  }

  /** A file the database does not list, without a related source, gets
      the "all" entry and leaves the cache as it was. */
  lemma GetFlagsAllEntry(st: DbState, rawFile: Option<string>, q: Query, d: Database)
    requires q.found.Some? && q.found.value != "" && q.found.value in st.cache && st.cache[q.found.value] == Parsed(Some(d))
    requires q.found.value in st.times && st.times[q.found.value] == q.mtime(q.found.value)
    requires AllTag in d.values
    requires rawFile.Some? ==> (var file := Tools.CanonicalPath(rawFile.value, "");
      file.None? || (file.value !in d.values && FindRelated(file.value, d.keys, q.templates, q.fnmatch).None?))
    ensures GetFlagsModel(st, rawFile, q) == (FlagsFound(d.values[AllTag]), st)
  {
    var file := if rawFile.Some? then Tools.CanonicalPath(rawFile.value, "") else None;
    LoadDbCached(st, file, q.found.value, q);
    assert d.values != map[];
    assert GetFlagsModel(st, rawFile, q) == Answer(d, file, q.found.value, st, q);
    assert RelatedEntry(d, file, q) == None;
    assert !(file.Some? && file.value != "" && file.value in d.values);
  }

  /** A file without its own entry whose related source is listed gets
      the related source's flags; the cached database then lists the file
      too, and the cache maps the related source to the database. */
  lemma GetFlagsRelated(st: DbState, rawFile: Option<string>, q: Query, d: Database)
    requires q.found.Some? && q.found.value != "" && q.found.value in st.cache && st.cache[q.found.value] == Parsed(Some(d))
    requires q.found.value in st.times && st.times[q.found.value] == q.mtime(q.found.value)
    requires rawFile.Some? && rawFile.value != ""
    requires RelatedEntry(d, Tools.CanonicalPath(rawFile.value, ""), q).Some?
    ensures var file := Tools.CanonicalPath(rawFile.value, "").value;
      var rel := RelatedEntry(d, Tools.CanonicalPath(rawFile.value, ""), q).value;
      var r := GetFlagsModel(st, rawFile, q);
      r.0 == FlagsFound(d.values[rel]) &&
      r.1.cache == st.cache[q.found.value := Parsed(Some(d.Put(file, d.values[rel])))][rel := DbPath(q.found.value)] &&
      r.1.times == st.times
  {
    var file := Tools.CanonicalPath(rawFile.value, "");
    var current := q.found.value;
    LoadDbCached(st, file, current, q);
    var rel := RelatedEntry(d, file, q).value;
    assert d.values != map[] by {
      assert rel in d.values;
    }
    var d2 := d.Put(file.value, d.values[rel]);
    assert rel in d2.values && d2.values[rel] == d.values[rel];
    assert GetFlagsModel(st, rawFile, q) == Answer(d, file, current, st, q);
    assert st.times[current := q.mtime(current)] == st.times;
  }

  /** `CompilationDb`: the include prefixes, the templates and the cache
      shared by all databases (`ComplationDbCache`). */
  class CompilationDb {
    const prefixes: seq<string>
    const headerToSource: Option<seq<string>>
    const useBuiltins: bool
    var cache: map<string, CacheValue>
    /** `File.__modification_cache` */
    const times: Tools.ModificationCache

    constructor (prefixes0: seq<string>, headerToSource0: Option<seq<string>>, useBuiltins0: bool,
                 cache0: map<string, CacheValue>, times0: Tools.ModificationCache)
      ensures prefixes == prefixes0 && headerToSource == headerToSource0 && useBuiltins == useBuiltins0
      ensures cache == cache0 && times == times0
    {
      prefixes := prefixes0;
      headerToSource := headerToSource0;
      useBuiltins := useBuiltins0;
      cache := cache0;
      times := times0;
    }

    /** The loading half of `get_flags`: from the cached path to the
        database in use. */
    method Load(file: Option<string>, current: string, q: Query) returns (res: Result<Option<Database>>)
      modifies this, times
      ensures var l := LoadDb(DbState(old(cache), old(times.times)), file, current, q);
        (l.Err? ==> res.Err? && cache == old(cache) && times.times == old(times.times)) &&
        (l.Ok? ==> res == Ok(l.value.0) && DbState(cache, times.times) == l.value.1)
    {
      var cachedPath: Option<string>;
      if current in cache {
        cachedPath := Some(current);
      } else {
        var c := CachedFrom(cache, file);
        if c.Some? && c.value.DbPath? {
          cachedPath := Some(c.value.path);
        } else if c.Some? && c.value.db.Some? && c.value.db.value.values != map[] {
          return Err("not a path");
        } else {
          cachedPath := None;
        }
      }
      var dbIsUnchanged := false;
      if cachedPath.Some? {
        dbIsUnchanged := times.IsUnchanged(cachedPath.value, q.mtime(cachedPath.value));
      }
      if cachedPath == Some(current) && dbIsUnchanged {
        if !(current in cache && cache[current].Parsed?) {
          return Err("KeyError");
        }
        return Ok(cache[current].db);
      }
      if current == "" {
        return Ok(None);
      }
      if cachedPath.Some? && cachedPath.value != "" && cachedPath.value in cache {
        cache := cache - {cachedPath.value};
      }
      cache := cache[current := Parsed(q.parsed)];
      return Ok(q.parsed);
    }

    /** The related source of a file the database does not list. */
    method Related(d: Database, file: Option<string>, q: Query) returns (rel: Option<string>)
      requires q.templates == GetTemplatesOf(headerToSource)
      ensures rel == RelatedEntry(d, file, q)
    {
      rel := None;
      if file.Some? && file.value != "" && file.value !in d.values {
        var templates := GetTemplates(headerToSource);
        var related := FindRelatedSources(file, d.keys, templates, q.fnmatch);
        if related.Some? && related.value != "" && related.value in d.values {
          rel := related;
        }
      }
    }

    /** The answering half of `get_flags`, from a loaded non-empty database. */
    method AnswerFrom(d0: Database, file0: Option<string>, current: string, q: Query) returns (r: FlagsLookup)
      requires q.templates == GetTemplatesOf(headerToSource)
      modifies this, times
      ensures (r, DbState(cache, times.times)) == Answer(d0, file0, current, DbState(old(cache), old(times.times)), q)
    {
      var d := d0;
      var file := file0;
      var rel := Related(d, file, q);
      if rel.Some? {
        d := d.Put(file.value, d.values[rel.value]);
        cache := cache[current := Parsed(Some(d))];
        file := rel;
      }
      if file.Some? && file.value != "" && file.value in d.values {
        cache := cache[file.value := DbPath(current)];
        times.UpdateModTime(current, q.mtime(current));
        return FlagsFound(d.values[file.value]);
      }
      if AllTag in d.values {
        return FlagsFound(d.values[AllTag]);
      }
      return Raised;
    }

    /** `get_flags(file_path)` as intended (as written it raises at once, see
        `GetFlagsAsWritten`); `found` is what `File.search` found, `parsed`
        what `_parse_database` would give for it. */
    method GetFlags(rawFile: Option<string>, found: Option<string>, mtime: string -> real,
                    parsed: Option<Database>, fnmatch: (string, string) -> bool) returns (r: FlagsLookup)
      modifies this, times
      ensures var q := Query(found, mtime, parsed, GetTemplatesOf(headerToSource), fnmatch);
        (r, DbState(cache, times.times)) == GetFlagsModel(DbState(old(cache), old(times.times)), rawFile, q)
    {
      var q := Query(found, mtime, parsed, GetTemplatesOf(headerToSource), fnmatch);
      var file := if rawFile.Some? then Tools.CanonicalPath(rawFile.value, "") else None;
      if found.None? {
        return NoFlags;
      }
      var loaded := Load(file, found.value, q);
      if loaded.Err? {
        return Raised;
      }
      var db := loaded.value;
      if db.None? || db.value.values == map[] {
        return NoFlags;
      }
      r := AnswerFrom(db.value, file, found.value, q);
    }
  }

  /** The templates `_get_templates` gives. */
  function GetTemplatesOf(headerToSource: Option<seq<string>>): (r: seq<string>)
    ensures StampTemplate in r && AnyTemplate in r
  {
    var e := ExpandedTemplates(if headerToSource.Some? then headerToSource.value else []);
    e + (if StampTemplate in e then [] else [StampTemplate]) + (if AnyTemplate in e then [] else [AnyTemplate])
  }
}
