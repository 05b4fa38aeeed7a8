/** plugin/completion/flags_manager.py: reading and writing `.clang_complete`
    files for the older completion back end. Files are a map from path to
    text; a set of flags is written in an order the model leaves open, as
    Python's set iteration order is. */
module FlagsManagers {
  import opened Wrappers
  import opened Strings
  import opened PyPath
  import opened UniqueList

  // ---------------------------------------------------------------------------
  // SearchScope

  /** A Python value that is a string or None is truthy when it is a
      non-empty string. */
  predicate Truthy(s: Option<string>) {
    s.Some? && s.value != ""
  }

  /** `SearchScope(from_folder, to_folder)` of the flags manager: plain
      strings, and no folder defaults to the root. */
  datatype ManagerScope = ManagerScope(from: Option<string>, to: Option<string>) {
    /** `valid()` */
    function Valid(): (r: bool)
      ensures r <==> from.Some? && to.Some? && from.value != "" && to.value != ""
    {
      Truthy(from) && Truthy(to)
    }
  }

  /** The default `SearchScope()` is not valid: nothing fills in a folder. */
  lemma DefaultScopeInvalid(from: Option<string>)
    ensures !ManagerScope(from, None).Valid() && !ManagerScope(None, from).Valid()
  {
  }

  // ---------------------------------------------------------------------------
  // parse_flags

  /** The prefixes `parse_flags` tries, without their '-', in order, and the
      ones among them whose content is a path. */
  datatype PrefixPlan = PrefixPlan(possible: seq<string>, includes: seq<string>)

  /** `FlagsManager._possible_prefixes` and `_include_prefixes`. */
  const Plan := PrefixPlan(["std", "isystem", "D", "I"], ["isystem", "I"])

  /** The two masks of `parse_flags`: `'{} "{}"'` when includes are kept
      apart from their prefix, `'{}{}'` otherwise. */
  function Masked(prefix: string, content: string, separate: bool): string {
    if separate then prefix + " \"" + content + "\"" else prefix + content
  }

  /** A line as the prefix tests see it: a line without a leading '-' gets one
      (in the first pass of the inner loop, and keeps it). */
  function Dashed(line: string): (r: string)
    ensures StartsWith(r, "-")
    ensures StartsWith(line, "-") ==> r == line
    ensures !StartsWith(line, "-") ==> r == "-" + line
  {
    if StartsWith(line, "-") then line else "-" + line
  }

  /** The content of a flag: stripped of whitespace, then of double quotes;
      an include path that is relative is joined to the folder. */
  function Content(folder: string, rest: string, isInclude: bool): string {
    var content := Strip(StripWs(rest), {'"'});
    if isInclude && !IsAbs(content) then PathJoin(folder, content) else content
  }

  /** The flag `parse_flags` makes of a line that starts with '-' and the
      prefix, from the prefix and the rest of the line. */
  function FlagMaker(plan: PrefixPlan, folder: string, separate: bool): (string, string) -> string {
    (prefix: string, rest: string) => Masked("-" + prefix, Content(folder, rest, prefix in plan.includes), separate)
  }

  /** What one prefix makes of a dashed line. */
  function PrefixFlag(prefix: string, mk: (string, string) -> string, d: string): Option<string> {
    if StartsWith(d, "-" + prefix) then Some(mk(prefix, d[|prefix| + 1..])) else None
  }

  /** The flags the inner loop adds for one dashed line, trying the first
      `n` prefixes in order. */
  function PrefixesFlags(prefixes: seq<string>, mk: (string, string) -> string, d: string, n: nat): set<string>
    requires n <= |prefixes|
  {
    if n == 0 then {}
    else
      var f := PrefixFlag(prefixes[n - 1], mk, d);
      PrefixesFlags(prefixes, mk, d, n - 1) + (if f.Some? then {f.value} else {})
  }

  /** The flags one line of the file contributes. */
  function LineFlags(plan: PrefixPlan, folder: string, line: string, separate: bool): set<string> {
    PrefixesFlags(plan.possible, FlagMaker(plan, folder, separate), Dashed(line), |plan.possible|)
  }

  /** The union of `f(x)` over the items of `xs`, collected from the left. */
  function UnionMap<T>(f: T -> set<string>, xs: seq<T>): set<string> {
    if xs == [] then {} else UnionMap(f, xs[..|xs| - 1]) + f(xs[|xs| - 1])
  }

  /** The set `parse_flags(file, lines, separate_includes)` returns, with
      `folder` the file's folder. */
  function ParsedFlagSet(plan: PrefixPlan, folder: string, lines: seq<string>, separate: bool): set<string> {
    UnionMap(line => LineFlags(plan, folder, line, separate), lines)
  }

  /** No dashed prefix begins another one, so no line starts with two of them. */
  predicate Exclusive(prefixes: seq<string>) {
    forall i, j :: 0 <= i < |prefixes| && 0 <= j < |prefixes| && i != j ==>
      !StartsWith("-" + prefixes[i], "-" + prefixes[j])
  }

  /** The dashed line `d` starts with the `k`-th prefix. */
  predicate Matches(prefixes: seq<string>, d: string, k: int) {
    0 <= k < |prefixes| && StartsWith(d, "-" + prefixes[k])
  }

  /** -std, -isystem, -D and -I: none begins another. */
  lemma PlanExclusive()
    ensures Exclusive(Plan.possible)
  {
    var ps := Plan.possible;
    forall i, j | 0 <= i < |ps| && 0 <= j < |ps| && i != j
      ensures !StartsWith("-" + ps[i], "-" + ps[j])
    {
      var a, b := "-" + ps[i], "-" + ps[j];
      assert |a| >= 2 && |b| >= 2;
      assert a[1] == ps[i][0] && b[1] == ps[j][0];
    }
  }

  /** Two dashed prefixes that both begin a line: the shorter begins the longer. */
  lemma BothStart(d: string, a: string, b: string)
    requires StartsWith(d, a) && StartsWith(d, b) && |a| <= |b|
    ensures StartsWith(b, a)
  {
    assert b[..|a|] == d[..|b|][..|a|];
  }

  /** With exclusive prefixes a line matches at most one of them. */
  lemma MatchesOne(prefixes: seq<string>, d: string, i: int, j: int)
    requires Exclusive(prefixes) && Matches(prefixes, d, i) && i != j
    ensures !Matches(prefixes, d, j)
  {
    if Matches(prefixes, d, j) {
      var a, b := "-" + prefixes[i], "-" + prefixes[j];
      if |a| <= |b| { BothStart(d, a, b); } else { BothStart(d, b, a); }
    }
  }

  /** With none of the first `n` prefixes matching, the line gives nothing. */
  lemma {:induction false} PrefixesFlagsNone(prefixes: seq<string>, mk: (string, string) -> string, d: string, n: nat)
    requires n <= |prefixes|
    requires forall k :: 0 <= k < n ==> !Matches(prefixes, d, k)
    ensures PrefixesFlags(prefixes, mk, d, n) == {}
  {
    if n > 0 {
      assert !Matches(prefixes, d, n - 1);
      PrefixesFlagsNone(prefixes, mk, d, n - 1);
    }
  }

  /** With only the `m`-th of the first `n` prefixes matching, the line gives
      just the flag of that prefix. */
  lemma {:induction false} PrefixesFlagsOne(prefixes: seq<string>, mk: (string, string) -> string, d: string, n: nat, m: nat)
    requires m < n <= |prefixes| && Matches(prefixes, d, m)
    requires forall k :: 0 <= k < n && k != m ==> !Matches(prefixes, d, k)
    ensures PrefixesFlags(prefixes, mk, d, n) == {mk(prefixes[m], d[|prefixes[m]| + 1..])}
  {
    if n - 1 == m {
      PrefixesFlagsNone(prefixes, mk, d, m);
    } else {
      assert !Matches(prefixes, d, n - 1);
      PrefixesFlagsOne(prefixes, mk, d, n - 1, m);
    }
  }

  /** With prefixes of which none begins another, a line gives exactly one
      flag if, once dashed, it starts with one of the prefixes, and none
      otherwise; the flag keeps that prefix and holds the line's content
      after it. */
  lemma LineFlagsShape(plan: PrefixPlan, folder: string, line: string, separate: bool)
    requires Exclusive(plan.possible)
    ensures (exists k :: Matches(plan.possible, Dashed(line), k)) ==>
      exists k :: Matches(plan.possible, Dashed(line), k) &&
        LineFlags(plan, folder, line, separate) ==
          {Masked("-" + plan.possible[k], Content(folder, Dashed(line)[|plan.possible[k]| + 1..],
                                                  plan.possible[k] in plan.includes), separate)}
    ensures (forall k :: !Matches(plan.possible, Dashed(line), k)) ==> LineFlags(plan, folder, line, separate) == {}
  {
    var ps, d, mk := plan.possible, Dashed(line), FlagMaker(plan, folder, separate);
    if exists k :: Matches(ps, d, k) {
      var k :| Matches(ps, d, k);
      forall j | 0 <= j < |ps| && j != k ensures !Matches(ps, d, j) {
        MatchesOne(ps, d, k, j);
      }
      PrefixesFlagsOne(ps, mk, d, |ps|, k);
    } else {
      PrefixesFlagsNone(ps, mk, d, |ps|);
    }
  }

  /** A line without a leading '-' gives what it gives with one. */
  lemma LineFlagsDash(plan: PrefixPlan, folder: string, line: string, separate: bool)
    requires !StartsWith(line, "-")
    ensures LineFlags(plan, folder, line, separate) == LineFlags(plan, folder, "-" + line, separate)
  {
    assert StartsWith("-" + line, "-");
  }

  /** An element is in the union exactly when some item contributes it. */
  lemma {:induction false} UnionMapMember<T>(f: T -> set<string>, xs: seq<T>, x: string)
    ensures x in UnionMap(f, xs) <==> exists k :: 0 <= k < |xs| && x in f(xs[k])
  {
    if xs != [] {
      var front := xs[..|xs| - 1];
      UnionMapMember(f, front, x);
      if exists k :: 0 <= k < |front| && x in f(front[k]) {
        var k :| 0 <= k < |front| && x in f(front[k]);
        assert xs[k] == front[k];
      }
      if exists k :: 0 <= k < |xs| && x in f(xs[k]) {
        var k :| 0 <= k < |xs| && x in f(xs[k]);
        if k < |front| {
          assert front[k] == xs[k];
        }
      }
    }
  }

  /** A flag is in the parsed set exactly when some line contributes it. */
  lemma ParsedFlagSetMember(plan: PrefixPlan, folder: string, lines: seq<string>, separate: bool, x: string)
    ensures x in ParsedFlagSet(plan, folder, lines, separate) <==>
      exists k :: 0 <= k < |lines| && x in LineFlags(plan, folder, lines[k], separate)
  {
    UnionMapMember(line => LineFlags(plan, folder, line, separate), lines, x);
  }

  /** The result is a set: a line that occurs again adds nothing. */
  lemma ParsedFlagSetRepeat(plan: PrefixPlan, folder: string, lines: seq<string>, separate: bool, line: string)
    requires line in lines
    ensures ParsedFlagSet(plan, folder, lines + [line], separate) == ParsedFlagSet(plan, folder, lines, separate)
  {
    var f := l => LineFlags(plan, folder, l, separate);
    assert (lines + [line])[..|lines|] == lines;
    assert UnionMap(f, lines + [line]) == UnionMap(f, lines) + f(line);
    forall x | x in f(line)
      ensures x in UnionMap(f, lines)
    {
      UnionMapMember(f, lines, x);
    }
  }

  /** The inner loop of `parse_flags` over the prefixes of the plan, for one
      line: the first pass gives the line its '-'. */
  method AddLineFlags(plan: PrefixPlan, folder: string, line: string, separate: bool, flags: set<string>)
    returns (added: set<string>)
    requires plan.possible != []
    ensures added == flags + LineFlags(plan, folder, line, separate)
  {
    ghost var mk := FlagMaker(plan, folder, separate);
    added := flags;
    var current := line;
    var j := 0;
    while j < |plan.possible|
      invariant 0 <= j <= |plan.possible|
      invariant current == if j == 0 then line else Dashed(line)
      invariant added == flags + PrefixesFlags(plan.possible, mk, Dashed(line), j)
    {
      if !StartsWith(current, "-") {
        current := "-" + current;
      }
      assert current == Dashed(line);
      added := TryPrefixAt(plan, folder, current, separate, flags, j, added);
      j := j + 1;
    }
  }

  /** One pass of the inner loop, as a step of `PrefixesFlags`. */
  method TryPrefixAt(plan: PrefixPlan, folder: string, d: string, separate: bool, flags: set<string>, j: nat,
                     added: set<string>)
    returns (next: set<string>)
    requires j < |plan.possible|
    requires added == flags + PrefixesFlags(plan.possible, FlagMaker(plan, folder, separate), d, j)
    ensures next == flags + PrefixesFlags(plan.possible, FlagMaker(plan, folder, separate), d, j + 1)
  {
    ghost var mk := FlagMaker(plan, folder, separate);
    next := TryPrefix(plan, folder, d, plan.possible[j], separate, added);
    ghost var f := PrefixFlag(plan.possible[j], mk, d);
    UnionAssoc(flags, PrefixesFlags(plan.possible, mk, d, j), if f.Some? then {f.value} else {});
  }

  lemma UnionAssoc(a: set<string>, b: set<string>, c: set<string>)
    ensures (a + b) + c == a + (b + c)
  {
  }

  /** One pass of the inner loop: the flag the prefix makes of the line,
      when the line starts with it. */
  method TryPrefix(plan: PrefixPlan, folder: string, line: string, prefix: string, separate: bool, flags: set<string>)
    returns (added: set<string>)
    ensures var f := PrefixFlag(prefix, FlagMaker(plan, folder, separate), line);
      added == flags + (if f.Some? then {f.value} else {})
  {
    added := flags;
    var full := "-" + prefix;
    if StartsWith(line, full) {
      var rest := line[|full|..];
      var content := Strip(StripWs(rest), {'"'});
      if prefix in plan.includes && !IsAbs(content) {
        content := PathJoin(folder, content);
      }
      assert content == Content(folder, rest, prefix in plan.includes);
      assert rest == line[|prefix| + 1..];
      added := added + {Masked(full, content, separate)};
    }
  }

  /** `FlagsManager.parse_flags(file, lines, separate_includes)`, with the
      file's folder as a string. */
  method ParseFlags(folder: string, lines: seq<string>, separate: bool) returns (flags: set<string>)
    ensures flags == ParsedFlagSet(Plan, folder, lines, separate)
  {
    flags := {};
    var i := 0;
    while i < |lines|
      invariant 0 <= i <= |lines|
      invariant flags == ParsedFlagSet(Plan, folder, lines[..i], separate)
    {
      assert lines[..i + 1][..i] == lines[..i];
      flags := AddLineFlags(Plan, folder, lines[i], separate, flags);
      i := i + 1;
    }
    assert lines[..|lines|] == lines;
  }

  // ---------------------------------------------------------------------------
  // Reading and writing the file

  /** `f.readlines()`: the text cut after each "\n", which each line keeps. */
  function ReadLines(s: string): (r: seq<string>)
    decreases |s|
  {
    if s == [] then []
    else
      var k := LineEnd(s);
      [s[..k]] + ReadLines(s[k..])
  }

  /** The length of the first line of a non-empty text, its "\n" included. */
  function LineEnd(s: string): (k: nat)
    requires s != []
    ensures 1 <= k <= |s|
    ensures forall j :: 0 <= j < k - 1 ==> s[j] != '\n'
    ensures k < |s| ==> s[k - 1] == '\n'
  {
    if s[0] == '\n' || |s| == 1 then 1 else 1 + LineEnd(s[1..])
  }

  /** What `write_flags_to_file` writes for the flags in this order. */
  function FileText(order: seq<string>): string {
    Join(order, "\n") + "\n"
  }

  /** A text is read back as the lines it was written from, each with its
      "\n": the written file holds one flag per line. */
  lemma {:induction false} ReadFileText(order: seq<string>)
    requires order != []
    requires forall k :: 0 <= k < |order| ==> '\n' !in order[k]
    ensures ReadLines(FileText(order)) == MapSeqNl(order)
    decreases |order|
  {
    var head := order[0] + "\n";
    var rest := if |order| == 1 then "" else FileText(order[1..]);
    assert FileText(order) == head + rest by {
      if |order| > 1 {
        JoinCons(order[0], order[1..], "\n");
        assert [order[0]] + order[1..] == order;
      }
    }
    LineEndAt(order[0], rest);
    assert (head + rest)[..|head|] == head && (head + rest)[|head|..] == rest;
    if |order| > 1 {
      ReadFileText(order[1..]);
    }
  }

  /** The first line of `a + "\n" + rest`, when `a` has no "\n", ends after
      that "\n". */
  lemma LineEndAt(a: string, rest: string)
    requires '\n' !in a
    ensures LineEnd(a + "\n" + rest) == |a| + 1
  {
    var s := a + "\n" + rest;
    assert s[|a|] == '\n';
    assert forall j :: 0 <= j < |a| ==> s[j] == a[j];
  }

  /** The lines as `readlines` gives them back. */
  function MapSeqNl(order: seq<string>): (r: seq<string>)
    ensures |r| == |order|
    ensures forall k :: 0 <= k < |order| ==> r[k] == order[k] + "\n"
  {
    if order == [] then [] else [order[0] + "\n"] + MapSeqNl(order[1..])
  }

  /** A file object of the older `File` API: the path, or None when it was
      not loaded. */
  type FileRef = Option<string>

  /** `flags_from_clang_file(file, separate_includes)`: an unloaded file gives
      no flags and a missing one raises on `open`. */
  function FlagsFromClangFile(files: map<string, string>, file: FileRef, separate: bool): (r: Result<set<string>>)
    ensures !Truthy(file) ==> r == Ok({})
    ensures Truthy(file) ==> (r.Ok? <==> file.value in files)
    ensures r.Ok? && Truthy(file) ==> r.value == ParsedFlagSet(Plan, Dirname(file.value), ReadLines(files[file.value]), separate)
  {
    if !Truthy(file) then Ok({})
    else if file.value !in files then Err("FileNotFoundError")
    else Ok(ParsedFlagSet(Plan, Dirname(file.value), ReadLines(files[file.value]), separate))
  }

  /** What `file.full_path()` and `file.folder()` raise against the `File`
      of plugin/tools.py, where both are properties holding strings. */
  const NotCallable: string := "TypeError: 'str' object is not callable"

  /** `flags_from_clang_file(file, separate_includes)` as written against
      that `File`: a loaded file makes `open(file.full_path())` raise before
      anything is read. */
  function FlagsFromClangFileAsWritten(file: FileRef): (r: Result<set<string>>)
    ensures r.Ok? <==> !Truthy(file)
    ensures r.Ok? ==> r.value == {}
  {
    if !Truthy(file) then Ok({}) else Err(NotCallable)
  }

  /** Any existing `.clang_complete` file shows the difference: the code as
      written raises on it, while the intended reading gives its flags. */
  lemma ClangFileAsWrittenRaises(files: map<string, string>, file: FileRef, separate: bool)
    requires Truthy(file) && file.value in files
    ensures FlagsFromClangFileAsWritten(file) == Err(NotCallable)
    ensures FlagsFromClangFile(files, file, separate) ==
      Ok(ParsedFlagSet(Plan, Dirname(file.value), ReadLines(files[file.value]), separate))
  {
  }

  // ---------------------------------------------------------------------------
  // flags_from_database

  /** The flags one compile-command entry gives: its command cut at " -",
      the parts parsed like the lines of a `.clang_complete` file. An entry
      without a command gives none (the method raises on it first). */
  function EntryFlags(folder: string, separate: bool, entry: map<string, string>): set<string> {
    if "command" in entry then ParsedFlagSet(Plan, folder, Split(entry["command"], " -"), separate) else {}
  }

  /** The union of the flags of all entries. */
  function DatabaseFlags(folder: string, entries: seq<map<string, string>>, separate: bool): set<string> {
    UnionMap(e => EntryFlags(folder, separate, e), entries)
  }

  /** A flag comes from the database exactly when some entry gives it. */
  lemma DatabaseFlagsMember(folder: string, entries: seq<map<string, string>>, separate: bool, x: string)
    ensures x in DatabaseFlags(folder, entries, separate) <==>
      exists k :: 0 <= k < |entries| && x in EntryFlags(folder, separate, entries[k])
  {
    UnionMapMember(e => EntryFlags(folder, separate, e), entries, x);
  }

  /** An entry gives a flag exactly when some part of its command, cut at
      " -", makes it. */
  lemma EntryFlagsMember(folder: string, separate: bool, entry: map<string, string>, x: string)
    requires "command" in entry
    ensures x in EntryFlags(folder, separate, entry) <==>
      exists j :: 0 <= j < |Split(entry["command"], " -")| &&
        x in LineFlags(Plan, folder, Split(entry["command"], " -")[j], separate)
  {
    var parts := Split(entry["command"], " -");
    assert EntryFlags(folder, separate, entry) == ParsedFlagSet(Plan, folder, parts, separate);
    ParsedFlagSetMember(Plan, folder, parts, separate, x);
    if x in EntryFlags(folder, separate, entry) {
      var j :| 0 <= j < |parts| && x in LineFlags(Plan, folder, parts[j], separate);
      assert Split(entry["command"], " -")[j] == parts[j];
    }
  }

  /** One more entry adds its flags to the union. */
  lemma DatabaseFlagsSnoc(folder: string, entries: seq<map<string, string>>, separate: bool, i: nat)
    requires i < |entries|
    ensures DatabaseFlags(folder, entries[..i + 1], separate) ==
      DatabaseFlags(folder, entries[..i], separate) + EntryFlags(folder, separate, entries[i])
  {
    assert entries[..i + 1][..i] == entries[..i];
  }

  /** One pass of the loop of `flags_from_database`: the flags of the
      command of entry `i` join the set. */
  method AddEntryFlags(folder: string, entries: seq<map<string, string>>, separate: bool, i: nat,
                       flags: set<string>)
    returns (next: set<string>)
    requires i < |entries| && "command" in entries[i]
    requires flags == DatabaseFlags(folder, entries[..i], separate)
    ensures next == DatabaseFlags(folder, entries[..i + 1], separate)
  {
    var current := ParseFlags(folder, Split(entries[i]["command"], " -"), separate);
    DatabaseFlagsSnoc(folder, entries, separate, i);
    next := flags + current;
  }

  /** Each of the first `n` entries has a "command" key. */
  predicate CommandsUpTo(entries: seq<map<string, string>>, n: nat)
    requires n <= |entries|
  {
    forall k :: 0 <= k < n ==> "command" in entries[k]
  }

  /** `flags_from_database(database_file, separate_includes)`, with `entries`
      the list read from the JSON file and `folder` the database file's
      folder: an empty database gives None, an entry without a "command" key
      raises KeyError, and otherwise the result is the union of the flags of
      all commands. */
  method FlagsFromDatabase(folder: string, entries: seq<map<string, string>>, separate: bool)
    returns (r: Result<Option<set<string>>>)
    ensures entries == [] ==> r == Ok(None)
    ensures r.Err? <==> !CommandsUpTo(entries, |entries|)
    ensures r.Ok? && entries != [] ==> r == Ok(Some(DatabaseFlags(folder, entries, separate)))
  {
    if entries == [] {
      return Ok(None);
    }
    var flags := {};
    var i := 0;
    while i < |entries|
      invariant 0 <= i <= |entries|
      invariant CommandsUpTo(entries, i)
      invariant flags == DatabaseFlags(folder, entries[..i], separate)
    {
      if "command" !in entries[i] {
        return Err("KeyError");
      }
      flags := AddEntryFlags(folder, entries, separate, i, flags);
      i := i + 1;
    }
    assert entries[..|entries|] == entries;
    return Ok(Some(flags));
  }

  /** The answer to the "Merge! / Overwrite!" dialog. */
  datatype DialogPick = Yes | No | Cancel

  /** `get_flags_strategy(strategy)`, with `pick` the dialog's answer. */
  function FlagsStrategy(strategy: string, pick: DialogPick): (r: string)
    ensures strategy != "ask" ==> r == strategy
    ensures strategy == "ask" ==>
      (r == "merge" <==> pick == Yes) && (r == "overwrite" <==> pick == No) && (r == "keep_old" <==> pick == Cancel)
  {
    if strategy == "ask" then
      match pick
      case Yes => "merge"
      case No => "overwrite"
      case Cancel => "keep_old"
    else strategy
  }

  /** The existing file is kept as it is. */
  predicate KeepsOld(files: map<string, string>, filePath: string, strategy: string, pick: DialogPick) {
    filePath in files && FlagsStrategy(strategy, pick) == "keep_old"
  }

  /** The set `write_flags_to_file` writes: the new flags, together with
      the ones already in the file when the strategy is "merge". */
  function WrittenFlags(files: map<string, string>, newFlags: set<string>, filePath: string,
                        strategy: string, pick: DialogPick): set<string> {
    if filePath in files && FlagsStrategy(strategy, pick) == "merge" then
      newFlags + FlagsFromClangFile(files, Some(filePath), false).value
    else newFlags
  }

  /** `order` lists the set `s`, each element once. */
  ghost predicate Enumerates(order: seq<string>, s: set<string>) {
    NoDups(order) && forall x :: x in order <==> x in s
  }

  /** Python's iteration over a set: some order of its elements. */
  method SetOrder(s: set<string>) returns (order: seq<string>)
    ensures Enumerates(order, s)
  {
    order := [];
    var rest := s;
    while rest != {}
      invariant forall x :: x in order <==> x in s && x !in rest
      invariant rest <= s && NoDups(order)
      decreases |rest|
    {
      var x :| x in rest;
      order := order + [x];
      rest := rest - {x};
    }
  }

  /** `write_flags_to_file(new_flags, file_path, strategy)`: "keep_old" on an
      existing file writes nothing; otherwise the file afterwards holds the
      written flags one per line, and no other file changes. */
  method WriteFlagsToFile(files: map<string, string>, newFlags: set<string>, filePath: string,
                          strategy: string, pick: DialogPick) returns (after: map<string, string>)
    ensures KeepsOld(files, filePath, strategy, pick) ==> after == files
    ensures !KeepsOld(files, filePath, strategy, pick) ==>
      filePath in after && after == files[filePath := after[filePath]] &&
      exists order :: Enumerates(order, WrittenFlags(files, newFlags, filePath, strategy, pick)) &&
        after[filePath] == FileText(order)
  {
    var flags := newFlags;
    if filePath in files {
      var flagStrategy := FlagsStrategy(strategy, pick);
      if flagStrategy == "keep_old" {
        return files;
      }
      if flagStrategy == "merge" {
        var current := FlagsFromClangFile(files, Some(filePath), false);
        flags := flags + current.value;
      }
    }
    var order := SetOrder(flags);
    after := files[filePath := FileText(order)];
  }
}
