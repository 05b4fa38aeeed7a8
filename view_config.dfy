/** plugin/view_config.py: the configuration kept for each open view (its
    completer, the clang flags it was given and its include folders), how the
    flags are assembled from defaults, common flags and a flags source, and
    the manager that caches one configuration per view id and drops the ones
    not used for a while. */
module ViewConfigs {
  import opened Wrappers
  import opened Strings
  import opened PyPath
  import opened UniqueList
  import opened Flags
  import opened Tools
  import opened Collections
  import CompilerBuiltIns

  /** A completer as a view configuration sees it: the name of its class
      ("lib" or "bin") and the clang flags it was handed. */
  datatype Completer = Completer(name: string, clangFlags: seq<string>)

  /** What `__generate_essentials` returns: the new completer, the merged
      flags as a string list and the include folders. */
  datatype Essentials = Essentials(completer: Option<Completer>, flags: seq<string>, includeFolders: seq<string>)

  /** What `update_if_needed` did to the completer: replaced it, asked it to
      reparse the changed file, or left it alone. */
  datatype UpdateAction = NewCompleter | Reparse | NoChange

  // ---------------------------------------------------------------------------
  // ViewConfig

  /** `ViewConfig`; the clock is the `now` parameter of the methods. */
  class ViewConfig {
    var completer: Option<Completer>
    var lastUsageTime: real
    var includeFolders: seq<string>

    /** `ViewConfig(view, settings)`: an invalid view, or essentials without
        a completer, leave the configuration without a completer. */
    constructor (validView: bool, now: real, ess: Essentials)
      ensures !validView || ess.completer.None? ==> completer.None?
      ensures validView ==> lastUsageTime == now
      ensures validView && ess.completer.Some? ==>
        completer == Some(ess.completer.value.(clangFlags := ess.flags)) && includeFolders == ess.includeFolders
    {
      completer := None;
      includeFolders := [];
      if validView {
        lastUsageTime := now;
        if ess.completer.Some? {
          completer := Some(ess.completer.value.(clangFlags := ess.flags));
          includeFolders := ess.includeFolders;
        }
      }
    }

    /** `needs_update(completer, flags)` */
    function NeedsUpdate(c: Completer, flags: seq<string>): (r: bool)
      reads this
      ensures r <==> completer.None? || c.name != completer.value.name || flags != completer.value.clangFlags
    {
      if completer.None? then true
      else if c.name != completer.value.name then true
      else flags != completer.value.clangFlags
    }

    /** `is_older_than(age)` at time `now`. */
    predicate IsOlderThan(age: real, now: real)
      reads this
    {
      now - lastUsageTime > age
    }

    /** `get_age()` at time `now`. */
    function GetAge(now: real): (r: real)
      reads this
      ensures r > 0.0 ==> forall age: real {:trigger IsOlderThan(age, now)} :: 0.0 <= age < r ==> IsOlderThan(age, now)
    {
      now - lastUsageTime
    }

    /** `touch()`: a configuration just touched is older than no
        non-negative age. */
    method Touch(now: real)
      modifies this
      ensures lastUsageTime == now && completer == old(completer) && includeFolders == old(includeFolders)
      ensures forall age: real {:trigger IsOlderThan(age, now)} :: age >= 0.0 ==> !IsOlderThan(age, now)
    {
      lastUsageTime := now;
    }

    /** `update_if_needed(view, settings)` with freshly generated essentials
        `ess`, the modification cache `files` and the file's current
        modification time `mtime`. Afterwards the configuration never needs
        an update for the same completer and flags. */
    method UpdateIfNeeded(now: real, ess: Essentials, files: ModificationCache, fileName: string, mtime: real)
      returns (action: UpdateAction)
      requires ess.completer.Some?
      modifies this, files
      ensures lastUsageTime == now
      ensures !NeedsUpdate(ess.completer.value, ess.flags)
      ensures old(NeedsUpdate(ess.completer.value, ess.flags)) ==>
        action == NewCompleter && completer == Some(ess.completer.value.(clangFlags := ess.flags)) &&
        includeFolders == ess.includeFolders && files.times == old(files.times)[fileName := mtime]
      ensures !old(NeedsUpdate(ess.completer.value, ess.flags)) ==>
        completer == old(completer) && includeFolders == old(includeFolders) &&
        (action == Reparse <==> !CheckUnchanged(old(files.times), fileName, mtime).0) &&
        action != NewCompleter && files.times == CheckUnchanged(old(files.times), fileName, mtime).1
    {
      Touch(now);
      var c := ess.completer.value;
      if NeedsUpdate(c, ess.flags) {
        completer := Some(c.(clangFlags := ess.flags));
        includeFolders := ess.includeFolders;
        files.UpdateModTime(fileName, mtime);
        return NewCompleter;
      }
      var same := files.IsUnchanged(fileName, mtime);
      if !same {
        return Reparse;
      }
      return NoChange;
    }
  }

  // ---------------------------------------------------------------------------
  // __merge_flags

  /** A flag whose body starts with "-std=". */
  predicate IsStdFlag(f: Flag) {
    StartsWith(f.body, "-std=")
  }

  /** `[i for i, flag in enumerate(flags) if flag.body.startswith('-std=')]`:
      the positions of the std flags, in increasing order. */
  function StdIndices(flags: seq<Flag>): (r: seq<nat>)
    ensures forall k :: 0 <= k < |r| ==> r[k] < |flags| && IsStdFlag(flags[r[k]])
    ensures forall i :: 0 <= i < |flags| && IsStdFlag(flags[i]) ==> i in r
    ensures forall k, l :: 0 <= k < l < |r| ==> r[k] < r[l]
  {
    if flags == [] then []
    else
      var n := |flags| - 1;
      var p := StdIndices(flags[..n]);
      assert forall i :: 0 <= i < n ==> flags[..n][i] == flags[i];
      p + (if IsStdFlag(flags[n]) then [n] else [])
  }

  /** There is a std flag in `flags`. */
  predicate HasStd(flags: seq<Flag>) {
    exists i :: 0 <= i < |flags| && IsStdFlag(flags[i])
  }

  /** The caller's `lang_flags` after `__merge_flags`: when both the language
      flags and the source flags hold a std flag, the first std flag of the
      language flags is gone; otherwise the list is untouched. */
  function MergedLang(lang: seq<Flag>, source: seq<Flag>): (r: seq<Flag>)
    ensures !(HasStd(lang) && HasStd(source)) ==> r == lang
    ensures HasStd(lang) && HasStd(source) ==>
      exists j :: 0 <= j < |lang| && IsStdFlag(lang[j]) && (forall i :: 0 <= i < j ==> !IsStdFlag(lang[i])) &&
        r == lang[..j] + lang[j + 1..]
  {
    var li := StdIndices(lang);
    var si := StdIndices(source);
    if si != [] && li != [] then
      var j := li[0];
      assert IsStdFlag(lang[j]) && IsStdFlag(source[si[0]]);
      assert forall i :: 0 <= i < j ==> !IsStdFlag(lang[i]);
      lang[..j] + lang[j + 1..]
    else
      assert !HasStd(lang) || !HasStd(source);
      lang
  }

  /** The only std flag of the language flags is dropped in favour of the
      source's std flags, which are all kept. */
  lemma MergedLangSingleStd(lang: seq<Flag>, source: seq<Flag>, j: nat)
    requires j < |lang| && IsStdFlag(lang[j]) && forall i :: 0 <= i < |lang| && i != j ==> !IsStdFlag(lang[i])
    requires HasStd(source)
    ensures !HasStd(MergedLang(lang, source))
    ensures |MergedLang(lang, source)| == |lang| - 1
  {
    var r := MergedLang(lang, source);
    var k :| 0 <= k < |lang| && IsStdFlag(lang[k]) && (forall i :: 0 <= i < k ==> !IsStdFlag(lang[i])) &&
      r == lang[..k] + lang[k + 1..];
    assert k == j;
    forall i | 0 <= i < |r| ensures !IsStdFlag(r[i]) {
      if i < j { assert r[i] == lang[i]; } else { assert r[i] == lang[i + 1]; }
    }
  }

  /** `__merge_flags(init, lang, common, source)` as a value: the
      concatenation with later duplicates removed. */
  function MergedFlags(init: seq<Flag>, lang: seq<Flag>, common: seq<Flag>, source: seq<Flag>): seq<Flag> {
    Unique(init + MergedLang(lang, source) + common + source)
  }

  /** The merged flags hold no flag twice, hold exactly the flags of the four
      lists (the language list after its std flag was dropped), keep the
      order in which flags first occur, and keep every initial and source
      flag. */
  lemma MergedFlagsSpec(init: seq<Flag>, lang: seq<Flag>, common: seq<Flag>, source: seq<Flag>)
    ensures var all := init + MergedLang(lang, source) + common + source;
      var r := MergedFlags(init, lang, common, source);
      NoDups(r) &&
      (forall f :: f in r <==> f in init || f in MergedLang(lang, source) || f in common || f in source) &&
      (forall i, j :: 0 <= i < j < |r| ==> IndexOf(all, r[i]) < IndexOf(all, r[j])) &&
      (forall f :: f in init ==> f in r) && (forall f :: f in source ==> f in r)
  {
    var all := init + MergedLang(lang, source) + common + source;
    UniqueSpec(all);
  }

  /** The flags of the initial list come first, in their own order without
      repeats. */
  lemma MergedFlagsInitFirst(init: seq<Flag>, lang: seq<Flag>, common: seq<Flag>, source: seq<Flag>)
    ensures var r := MergedFlags(init, lang, common, source);
      |Unique(init)| <= |r| && r[..|Unique(init)|] == Unique(init)
  {
    UniquePrefixOfFour(init, MergedLang(lang, source), common, source);
  }

  /** A Python list that a callee changes in place. */
  class FlagList {
    var items: seq<Flag>

    constructor (items0: seq<Flag>)
      ensures items == items0
    {
      items := items0;
    }
  }

  /** `__merge_flags(init_flags, lang_flags, common_flags, source_flags)`:
      deletes the first std flag of `lang_flags` in place when the source
      defines one too, and returns the merged unique list. */
  method MergeFlags(init: seq<Flag>, lang: FlagList, common: seq<Flag>, source: seq<Flag>) returns (flags: seq<Flag>)
    modifies lang
    ensures lang.items == MergedLang(old(lang.items), source)
    ensures flags == MergedFlags(init, old(lang.items), common, source)
  {
    var langIdx := StdIndices(lang.items);
    var sourceIdx := StdIndices(source);
    if |sourceIdx| > 0 && |langIdx| > 0 {
      var j := langIdx[0];
      lang.items := lang.items[..j] + lang.items[j + 1..];
    }
    flags := Unique(init + lang.items + common + source);
  }

  // ---------------------------------------------------------------------------
  // __generate_essentials: the flag strings and the include folders

  /** The flags as one string list: each flag's `as_list()` in turn. */
  function FlagStrings(flags: seq<Flag>): (r: seq<string>)
    ensures |r| >= |flags|
  {
    if flags == [] then [] else FlagStrings(flags[..|flags| - 1]) + flags[|flags| - 1].AsList()
  }

  /** Flags without a prefix give exactly their bodies. */
  lemma {:induction false} FlagStringsOfBodies(flags: seq<Flag>)
    requires forall k :: 0 <= k < |flags| ==> flags[k].prefix == ""
    ensures |FlagStrings(flags)| == |flags|
    ensures forall k :: 0 <= k < |flags| ==> FlagStrings(flags)[k] == flags[k].body
  {
    if flags != [] {
      FlagStringsOfBodies(flags[..|flags| - 1]);
    }
  }

  /** The loop `for flag in flags: flags_as_str_list += flag.as_list()`. */
  method FlagsAsStrList(flags: seq<Flag>) returns (strs: seq<string>)
    ensures strs == FlagStrings(flags)
  {
    strs := [];
    var i := 0;
    while i < |flags|
      invariant 0 <= i <= |flags|
      invariant strs == FlagStrings(flags[..i])
    {
      assert flags[..i + 1][..i] == flags[..i];
      strs := strs + flags[i].AsList();
      i := i + 1;
    }
    assert flags[..|flags|] == flags;
  }

  /** What one (flag, prefix) pair adds to the include folders. */
  function PairFolders(flag: Flag, prefix: string): (r: seq<string>)
    ensures |r| <= 1
  {
    if StartsWith(flag.prefix, prefix) then [flag.body]
    else if StartsWith(flag.body, prefix) then [flag.body[|prefix|..]]
    else []
  }

  /** What one flag adds, prefix by prefix: the inner loop. */
  function FlagFolders(prefixes: seq<string>): Flag -> seq<string> {
    flag => ConcatMap(prefix => PairFolders(flag, prefix), prefixes)
  }

  /** `__get_include_folders(include_prefixes, all_flags)` as a value. */
  function IncludeFolders(prefixes: seq<string>, flags: seq<Flag>): seq<string> {
    ConcatMap(FlagFolders(prefixes), flags)
  }

  /** A (flag, prefix) pair contributes `x` when the flag's prefix starts with
      the prefix and `x` is the body, or else when the body starts with the
      prefix and `x` is the rest of the body. */
  predicate Contributes(flag: Flag, prefix: string, x: string) {
    (StartsWith(flag.prefix, prefix) && x == flag.body) ||
    (!StartsWith(flag.prefix, prefix) && StartsWith(flag.body, prefix) && x == flag.body[|prefix|..])
  }

  /** Every include folder comes from some (flag, prefix) pair, and every
      pair that matches contributes its folder. */
  lemma IncludeFoldersMember(prefixes: seq<string>, flags: seq<Flag>, x: string)
    ensures x in IncludeFolders(prefixes, flags) <==>
      exists k, j :: 0 <= k < |flags| && 0 <= j < |prefixes| && Contributes(flags[k], prefixes[j], x)
  {
    ConcatMapMember(FlagFolders(prefixes), flags, x);
    forall k | 0 <= k < |flags|
      ensures x in FlagFolders(prefixes)(flags[k]) <==>
        exists j :: 0 <= j < |prefixes| && Contributes(flags[k], prefixes[j], x)
    {
      var flag := flags[k];
      ConcatMapMember(prefix => PairFolders(flag, prefix), prefixes, x);
    }
  }

  /** The folders of the flags of two lists, one after the other. */
  lemma IncludeFoldersAppend(prefixes: seq<string>, a: seq<Flag>, b: seq<Flag>)
    ensures IncludeFolders(prefixes, a + b) == IncludeFolders(prefixes, a) + IncludeFolders(prefixes, b)
  {
    ConcatMapAppend(FlagFolders(prefixes), a, b);
  }

  /** A separated include flag gives its body; the same path glued to the
      prefix, with no prefix of its own, gives the path as well. */
  lemma IncludeFolderForms(p: string, path: string)
    requires p != ""
    ensures IncludeFolders([p], [NewFlag(p, path)]) == [path]
    ensures IncludeFolders([p], [NewFlag("", p + path)]) == [path]
  {
    var separate, glued := NewFlag(p, path), NewFlag("", p + path);
    ConcatMapSingle(FlagFolders([p]), separate);
    ConcatMapSingle(prefix => PairFolders(separate, prefix), p);
    ConcatMapSingle(FlagFolders([p]), glued);
    ConcatMapSingle(prefix => PairFolders(glued, prefix), p);
    assert (p + path)[..|p|] == p;
    assert (p + path)[|p|..] == path;
    assert !StartsWith("", p);
  }

  /** `__get_include_folders(include_prefixes, all_flags)`, with its two loops. */
  method GetIncludeFolders(prefixes: seq<string>, flags: seq<Flag>) returns (folders: seq<string>)
    ensures folders == IncludeFolders(prefixes, flags)
  {
    folders := [];
    var i := 0;
    while i < |flags|
      invariant 0 <= i <= |flags|
      invariant folders == IncludeFolders(prefixes, flags[..i])
    {
      var flag := flags[i];
      var j := 0;
      while j < |prefixes|
        invariant 0 <= j <= |prefixes|
        invariant folders == IncludeFolders(prefixes, flags[..i]) + ConcatMap(prefix => PairFolders(flag, prefix), prefixes[..j])
      {
        var prefix := prefixes[j];
        ConcatMapSnoc(prefix => PairFolders(flag, prefix), prefixes, j);
        if StartsWith(flag.prefix, prefix) {
          folders := folders + [flag.body];
        } else if StartsWith(flag.body, prefix) {
          folders := folders + [flag.body[|prefix|..]];
        }
        j := j + 1;
      }
      assert prefixes[..|prefixes|] == prefixes;
      ConcatMapSnoc(FlagFolders(prefixes), flags, i);
      i := i + 1;
    }
    assert flags[..|flags|] == flags;
  }

  // ---------------------------------------------------------------------------
  // get_includes_from_clang

  /** The position of the last line starting with `marker`, or -1. */
  function LastLineWith(lines: seq<string>, marker: string): (r: int)
    ensures -1 <= r < |lines|
    ensures r >= 0 ==> StartsWith(lines[r], marker)
    ensures forall k :: r < k < |lines| ==> !StartsWith(lines[k], marker)
  {
    if lines == [] then -1
    else if StartsWith(lines[|lines| - 1], marker) then |lines| - 1
    else LastLineWith(lines[..|lines| - 1], marker)
  }

  const IncludeMarker: string := "#include <...>"
  const EndMarker: string := "End of search"

  /** Where the include lines start: just after the last include marker. */
  function IncludesStart(lines: seq<string>): nat {
    LastLineWith(lines, IncludeMarker) + 1
  }

  /** Where they end: at the last end marker, or 0 when there is none. */
  function IncludesEnd(lines: seq<string>): nat {
    var e := LastLineWith(lines, EndMarker);
    if e < 0 then 0 else e
  }

  /** `"-I" + normpath(line.strip())` */
  function IncludeFlag(line: string): string {
    "-I" + NormPath(StripWs(line))
  }

  /** The lines `range(start_idx, end_idx)` visits: those strictly between
      the last include marker and the last end marker, none of them an
      include marker, and none at all unless an end marker follows the last
      include marker. */
  function IncludeLines(lines: seq<string>): (r: seq<string>)
    ensures LastLineWith(lines, EndMarker) <= LastLineWith(lines, IncludeMarker) ==> r == []
    ensures |r| == (if IncludesStart(lines) < IncludesEnd(lines) then IncludesEnd(lines) - IncludesStart(lines) else 0)
    ensures forall k :: 0 <= k < |r| ==>
      r[k] == lines[IncludesStart(lines) + k] && !StartsWith(r[k], IncludeMarker) &&
      LastLineWith(lines, IncludeMarker) < IncludesStart(lines) + k < LastLineWith(lines, EndMarker)
  {
    var s, e := IncludesStart(lines), IncludesEnd(lines);
    if s < e then lines[s..e] else []
  }

  /** The includes taken from the lines of `clang -v` output. */
  function ClangIncludes(lines: seq<string>): (r: seq<string>)
    ensures |r| == |IncludeLines(lines)|
  {
    MapSeq(IncludeFlag, IncludeLines(lines))
  }

  /** Each include is "-I" and the normalised, stripped line it comes from. */
  lemma ClangIncludesAt(lines: seq<string>, k: nat)
    requires k < |ClangIncludes(lines)|
    ensures ClangIncludes(lines)[k] == IncludeFlag(lines[IncludesStart(lines) + k])
  {
    MapSeqIndex(IncludeFlag, IncludeLines(lines), k);
  }

  lemma LastLineWithSnoc(lines: seq<string>, line: string, marker: string)
    ensures LastLineWith(lines + [line], marker) ==
      if StartsWith(line, marker) then |lines| else LastLineWith(lines, marker)
  {
    assert (lines + [line])[..|lines|] == lines;
  }

  /** No line starts with both markers. */
  lemma MarkersExclusive(line: string)
    requires StartsWith(line, IncludeMarker)
    ensures !StartsWith(line, EndMarker)
  {
    assert line[0] == IncludeMarker[0];
  }

  /** `get_includes_from_clang(clang_output)`, with its two loops. */
  method GetIncludesFromClang(output: string) returns (includes: seq<string>)
    ensures includes == ClangIncludes(Split(output, "\n"))
  {
    includes := IncludesFromLines(Split(output, "\n"));
  }

  /** `get_includes_from_clang` once the output is split into lines. */
  method IncludesFromLines(lines: seq<string>) returns (includes: seq<string>)
    ensures includes == ClangIncludes(lines)
  {
    var startIdx, endIdx := IncludeRange(lines);
    // The second loop, over `range(start_idx, end_idx)`.
    includes := MapLoop(IncludeFlag, if startIdx < endIdx then lines[startIdx..endIdx] else []);
  }

  /** The first loop of `get_includes_from_clang`: where the include lines
      start and end. */
  method IncludeRange(lines: seq<string>) returns (startIdx: nat, endIdx: nat)
    ensures startIdx == IncludesStart(lines) && endIdx == IncludesEnd(lines)
    ensures startIdx <= |lines| && endIdx <= |lines|
  {
    startIdx := 0;
    endIdx := 0;
    var idx := 0;
    while idx < |lines|
      invariant 0 <= idx <= |lines|
      invariant startIdx == LastLineWith(lines[..idx], IncludeMarker) + 1
      invariant endIdx == (if LastLineWith(lines[..idx], EndMarker) < 0 then 0 else LastLineWith(lines[..idx], EndMarker))
    {
      var line := lines[idx];
      assert lines[..idx + 1] == lines[..idx] + [line];
      LastLineWithSnoc(lines[..idx], line, IncludeMarker);
      LastLineWithSnoc(lines[..idx], line, EndMarker);
      if StartsWith(line, IncludeMarker) {
        MarkersExclusive(line);
        startIdx := idx + 1;
      } else if StartsWith(line, EndMarker) {
        endIdx := idx;
      }
      idx := idx + 1;
    }
    assert lines[..|lines|] == lines;
  }

  // ---------------------------------------------------------------------------
  // __load_source_flags

  /** `SearchScope(from_folder, to_folder)` on path strings; `to` None is the root. */
  datatype Scope = Scope(from: string, to: Option<string>)

  /** One entry of `settings.flags_sources`: its "file" and "search_in" keys;
      the other keys only matter to the flag source built from it. */
  datatype SourceEntry = SourceEntry(file: Option<string>, searchIn: Option<string>, options: seq<string>)

  /** The file names a flag source object is built for. */
  const SourceFiles: seq<string> :=
    ["CMakeLists.txt", "Makefile", "compile_commands.json", ".clang_complete", "c_cpp_properties.json", "CppProperties.json"]

  /** The file names whose flag source `__load_source_flags` builds with the
      wrong number of arguments, so that building it raises `TypeError`:
      `CMakeFile` takes two arguments (plugin/flags_sources/cmake_file.py:38)
      and is given six, `CompilationDb` takes three
      (plugin/flags_sources/compilation_db.py:28-30) and is given two. */
  const MisbuiltSources: set<string> := {"CMakeLists.txt", "compile_commands.json"}

  const ArityError: string := "TypeError: __init__() got the wrong number of arguments"

  /** `flag_source.get_flags(view_file, search_scope)` of the source built
      from an entry; an empty result stands for both None and []. */
  type FlagsOf = (SourceEntry, string, Scope) -> seq<Flag>

  /** The scope after looking at an entry's "search_in". */
  function ScopeAfter(e: SourceEntry, scope: Scope): Scope {
    if e.searchIn.Some? && e.searchIn.value != "" then Scope(NormPath(e.searchIn.value), None) else scope
  }

  /** The rest of the `__load_source_flags` loop, given the current scope and
      the entry the current `flag_source` object was built from. An entry
      with an unknown file name reuses the previous object, and fails when
      there is none (the local is unbound). Building a source for a file
      name in `misbuilt` raises. */
  function LoadFrom(entries: seq<SourceEntry>, scope: Scope, built: Option<SourceEntry>, viewFile: string, flagsOf: FlagsOf,
                    misbuilt: set<string>): Result<seq<Flag>>
    decreases |entries|
  {
    if entries == [] then Ok([])
    else
      var e := entries[0];
      if e.file.None? then LoadFrom(entries[1..], scope, built, viewFile, flagsOf, misbuilt)
      else
        var scope' := ScopeAfter(e, scope);
        if e.file.value in misbuilt then Err(ArityError)
        else
          var built' := if e.file.value in SourceFiles then Some(e) else built;
          if built'.None? then Err("flag_source referenced before assignment")
          else
            var flags := flagsOf(built'.value, viewFile, scope');
            if flags != [] then Ok(flags) else LoadFrom(entries[1..], scope', built', viewFile, flagsOf, misbuilt)
  }

  /** `__load_source_flags` as intended, every flag source built with the
      arguments its class takes: the search starts in the view's folder and
      stops at the project folder. */
  function LoadSourceFlagsOf(entries: seq<SourceEntry>, viewFile: string, projectFolder: Option<string>, flagsOf: FlagsOf): Result<seq<Flag>> {
    LoadFrom(entries, Scope(Dirname(viewFile), projectFolder), None, viewFile, flagsOf, {})
  }

  /** `__load_source_flags` as written: the first entry for "CMakeLists.txt"
      or "compile_commands.json" the loop reaches raises `TypeError`. */
  function LoadSourceFlagsAsWritten(entries: seq<SourceEntry>, viewFile: string, projectFolder: Option<string>, flagsOf: FlagsOf): (r: Result<seq<Flag>>)
    ensures entries != [] && entries[0].file.Some? && entries[0].file.value in MisbuiltSources ==> r == Err(ArityError)
  {
    LoadFrom(entries, Scope(Dirname(viewFile), projectFolder), None, viewFile, flagsOf, MisbuiltSources)
  }

  /** A project whose first flag source is its CMake file or compilation
      database shows the difference: the code as written raises, while the
      intended reading gives that source's flags when it has any. */
  lemma LoadSourceFlagsMisbuilt(e: SourceEntry, rest: seq<SourceEntry>, viewFile: string, projectFolder: Option<string>, flagsOf: FlagsOf)
    requires e.file.Some? && e.file.value in MisbuiltSources
    requires flagsOf(e, viewFile, ScopeAfter(e, Scope(Dirname(viewFile), projectFolder))) != []
    ensures LoadSourceFlagsAsWritten([e] + rest, viewFile, projectFolder, flagsOf) == Err(ArityError)
    ensures LoadSourceFlagsOf([e] + rest, viewFile, projectFolder, flagsOf) ==
      Ok(flagsOf(e, viewFile, ScopeAfter(e, Scope(Dirname(viewFile), projectFolder))))
  {
    assert ([e] + rest)[0] == e;
    assert e.file.value in SourceFiles;
  }

  /** Entries without "file" are skipped; the result is the flags of the
      first entry whose source gives any, or [] when none does. */
  lemma {:induction false} LoadFromSpec(entries: seq<SourceEntry>, scope: Scope, built: Option<SourceEntry>, viewFile: string, flagsOf: FlagsOf,
                                        misbuilt: set<string>)
    requires forall k :: 0 <= k < |entries| && entries[k].file.Some? ==> entries[k].file.value in SourceFiles && entries[k].file.value !in misbuilt
    ensures var r := LoadFrom(entries, scope, built, viewFile, flagsOf, misbuilt);
      r.Ok? &&
      (r.value == [] <==> forall k :: 0 <= k < |entries| && entries[k].file.Some? ==>
                           flagsOf(entries[k], viewFile, ScopeAt(entries, k, scope)) == []) &&
      (r.value != [] ==> exists k :: 0 <= k < |entries| && entries[k].file.Some? &&
                           r.value == flagsOf(entries[k], viewFile, ScopeAt(entries, k, scope)))
    decreases |entries|
  {
    if entries != [] {
      var e := entries[0];
      var scope' := if e.file.Some? then ScopeAfter(e, scope) else scope;
      var built' := if e.file.Some? then Some(e) else built;
      LoadFromSpec(entries[1..], scope', built', viewFile, flagsOf, misbuilt);
      forall k | 0 < k < |entries| ensures ScopeAt(entries, k, scope) == ScopeAt(entries[1..], k - 1, scope') {
        ScopeAtTail(entries, k, scope);
      }
      assert ScopeAt(entries, 0, scope) == scope';
    }
  }

  /** The scope the `k`th entry is asked with: each "search_in" of an entry
      with a file replaces it, and the change persists for later entries. */
  function ScopeAt(entries: seq<SourceEntry>, k: nat, scope: Scope): Scope
    requires k < |entries|
  {
    var e := entries[0];
    var scope' := if e.file.Some? then ScopeAfter(e, scope) else scope;
    if k == 0 then scope' else ScopeAt(entries[1..], k - 1, scope')
  }

  lemma ScopeAtTail(entries: seq<SourceEntry>, k: nat, scope: Scope)
    requires 0 < k < |entries|
    ensures ScopeAt(entries, k, scope) ==
      ScopeAt(entries[1..], k - 1, if entries[0].file.Some? then ScopeAfter(entries[0], scope) else scope)
  {
  }

  /** An entry with an unknown file name before any known one fails. */
  lemma LoadFromUnbound(e: SourceEntry, rest: seq<SourceEntry>, scope: Scope, viewFile: string, flagsOf: FlagsOf, misbuilt: set<string>)
    requires e.file.Some? && e.file.value !in SourceFiles
    ensures LoadFrom([e] + rest, scope, None, viewFile, flagsOf, misbuilt).Err?
  {
  }

  /** `__load_source_flags(view, settings, include_prefixes)` as intended,
      with its loop (as written, see `LoadSourceFlagsAsWritten`). */
  method LoadSourceFlags(entries: seq<SourceEntry>, viewFile: string, projectFolder: Option<string>, flagsOf: FlagsOf)
    returns (r: Result<seq<Flag>>)
    ensures r == LoadSourceFlagsOf(entries, viewFile, projectFolder, flagsOf)
  {
    var scope := Scope(Dirname(viewFile), projectFolder);
    var built: Option<SourceEntry> := None;
    var i := 0;
    while i < |entries|
      invariant 0 <= i <= |entries|
      invariant LoadFrom(entries[i..], scope, built, viewFile, flagsOf, {}) == LoadSourceFlagsOf(entries, viewFile, projectFolder, flagsOf)
    {
      var e := entries[i];
      assert entries[i..][1..] == entries[i + 1..];
      if e.file.None? {
        i := i + 1;
        continue;
      }
      var fileName := e.file.value;
      if e.searchIn.Some? {
        var searchFolder := e.searchIn.value;
        if searchFolder != "" {
          scope := Scope(NormPath(searchFolder), None);
        }
      }
      if fileName in SourceFiles {
        built := Some(e);
      }
      if built.None? {
        return Err("flag_source referenced before assignment");
      }
      var flags := flagsOf(built.value, viewFile, scope);
      if flags != [] {
        return Ok(flags);
      }
      i := i + 1;
    }
    return Ok([]);
  }

  // ---------------------------------------------------------------------------
  // __get_default_flags

  /** The argument list `__get_default_flags` tokenizes: the optional
      "-x <language>", the language flags and the default includes, then
      each built-in flag of the target compiler that is not there yet. */
  function DefaultFlagWords(needLangFlags: bool, lang: string, langArgs: seq<string>,
                            defaultIncludes: Option<seq<string>>, builtIns: Option<seq<string>>): seq<string>
    requires lang in LangNames
  {
    var base := (if needLangFlags then ["-x", LangNames[lang]] else []) + langArgs +
                (if defaultIncludes.Some? then defaultIncludes.value else []);
    if builtIns.Some? then Extend(base, builtIns.value) else base
  }

  /** The built-ins keep the other flags in front, are all present, and each
      one appended was not there before and is appended once. */
  lemma DefaultFlagWordsBuiltIns(needLangFlags: bool, lang: string, langArgs: seq<string>,
                                 defaultIncludes: Option<seq<string>>, builtIns: seq<string>)
    requires lang in LangNames
    ensures var base := DefaultFlagWords(needLangFlags, lang, langArgs, defaultIncludes, None);
      var r := DefaultFlagWords(needLangFlags, lang, langArgs, defaultIncludes, Some(builtIns));
      |base| <= |r| && r[..|base|] == base &&
      (forall b :: b in builtIns ==> b in r) &&
      (forall k :: |base| <= k < |r| ==> r[k] in builtIns && r[k] !in base) &&
      NoDups(r[|base|..])
  {
    var base := DefaultFlagWords(needLangFlags, lang, langArgs, defaultIncludes, None);
    ExtendSpec(base, builtIns);
    var r := Extend(base, builtIns);
    forall k | |base| <= k < |r| ensures r[k] in builtIns {
      assert r[k] in r;
    }
  }

  /** The loop that appends the built-in flags not present yet. */
  method AppendBuiltIns(flags0: seq<string>, builtIns: seq<string>) returns (flags: seq<string>)
    ensures flags == Extend(flags0, builtIns)
  {
    flags := flags0;
    var i := 0;
    while i < |builtIns|
      invariant 0 <= i <= |builtIns|
      invariant Extend(flags, builtIns[i..]) == Extend(flags0, builtIns)
    {
      var b := builtIns[i];
      assert builtIns[i..][1..] == builtIns[i + 1..];
      if b !in flags {
        flags := flags + [b];
      }
      i := i + 1;
    }
  }

  /** The built-in flags of the target compiler for `lang`, when one is
      set: those of `CompilerBuiltIns([target_compiler, "-x", lang], None)`
      with the memo holding `entries`. */
  function TargetBuiltIns(targetCompiler: Option<string>, lang: string,
                          entries: map<CompilerBuiltIns.Config, (seq<string>, seq<string>)>,
                          run: seq<string> -> string): Option<seq<string>> {
    if targetCompiler.None? then None
    else Some(CompilerBuiltIns.BuiltInFlags([targetCompiler.value, "-x", lang], None, entries, run))
  }

  /** `__get_default_flags(view, settings, need_lang_flags)` for the view's
      language `lang`; `clangOutput` is the output of the default clang when
      default includes are used, `targetCompiler` the setting
      `target_compilers[lang]`, `builtIns` the memo shared by every
      `CompilerBuiltIns`, and `run` answers the target compiler's queries. */
  method GetDefaultFlags(needLangFlags: bool, lang: string, langArgs: seq<string>, clangOutput: Option<string>,
                         targetCompiler: Option<string>, builtIns: CompilerBuiltIns.BuiltInsCache,
                         run: seq<string> -> string, order: seq<string>, expand: Expander)
    returns (flags: seq<Flag>)
    requires lang in LangNames
    modifies builtIns
    ensures var target := TargetBuiltIns(targetCompiler, lang, old(builtIns.entries), run);
      clangOutput.None? ==>
        flags == Tokenize(DefaultFlagWords(needLangFlags, lang, langArgs, None, target), "", order, expand)
    ensures var target := TargetBuiltIns(targetCompiler, lang, old(builtIns.entries), run);
      clangOutput.Some? ==>
        flags == Tokenize(DefaultFlagWords(needLangFlags, lang, langArgs,
                                           Some(ClangIncludes(Split(clangOutput.value, "\n"))), target), "", order, expand)
    ensures targetCompiler.None? ==> builtIns.entries == old(builtIns.entries)
    ensures targetCompiler.Some? ==>
      builtIns.entries == CompilerBuiltIns.MemoAfter([targetCompiler.value, "-x", lang], None, old(builtIns.entries), run)
  {
    ghost var defaultIncludes := if clangOutput.Some? then Some(ClangIncludes(Split(clangOutput.value, "\n"))) else None;
    var words: seq<string> := [];
    if needLangFlags {
      words := words + ["-x", LangNames[lang]];
    }
    assert words == (if needLangFlags then ["-x", LangNames[lang]] else []);
    words := words + langArgs;
    if clangOutput.Some? {
      var includes := GetIncludesFromClang(clangOutput.value);
      words := words + includes;
    } else {
      assert words == words + [];
    }
    assert words == DefaultFlagWords(needLangFlags, lang, langArgs, defaultIncludes, None);
    if targetCompiler.Some? {
      var compiler := new CompilerBuiltIns.BuiltIns([targetCompiler.value, "-x", lang], None, builtIns, run);
      words := AppendBuiltIns(words, compiler.Flags());
    }
    flags := TokenizeList(words, "", order, expand);
  }

  /** `__generate_essentials` for a valid view, given the completer, the
      compiler variant's include prefixes and initial flags, and the three
      other flag lists. */
  method GenerateEssentials(completer: Completer, prefixes: seq<string>, init: seq<Flag>,
                            lang: seq<Flag>, common: seq<Flag>, source: seq<Flag>)
    returns (ess: Essentials)
    ensures ess.completer == Some(completer)
    ensures ess.flags == FlagStrings(MergedFlags(init, lang, common, source))
    ensures ess.includeFolders == IncludeFolders(prefixes, MergedFlags(init, lang, common, source))
  {
    var langList := new FlagList(lang);
    var flags := MergeFlags(init, langList, common, source);
    var strs := FlagsAsStrList(flags);
    var folders := GetIncludeFolders(prefixes, flags);
    ess := Essentials(Some(completer), strs, folders);
  }

  // ---------------------------------------------------------------------------
  // ViewConfigManager

  /** The defaults of `ViewConfigManager.__init__`, in seconds. */
  const DefaultTimerPeriod: real := 30.0
  const DefaultMaxConfigAge: real := 60.0

  /** `ViewConfigManager`: one configuration per view buffer id. */
  class ViewConfigManager {
    var cache: map<int, ViewConfig>
    var timerPeriod: real
    var maxConfigAge: real

    constructor (timerPeriod0: real, maxConfigAge0: real)
      ensures cache == map[] && timerPeriod == timerPeriod0 && maxConfigAge == maxConfigAge0
    {
      cache := map[];
      timerPeriod := timerPeriod0;
      maxConfigAge := maxConfigAge0;
    }

    /** `get_from_cache(view)`: the cached configuration of a valid view,
        touched, or None. */
    method GetFromCache(validView: bool, vId: int, now: real) returns (r: Option<ViewConfig>)
      modifies if validView && vId in cache then {cache[vId]} else {}
      ensures cache == old(cache) && maxConfigAge == old(maxConfigAge)
      ensures r.Some? <==> validView && vId in cache
      ensures r.Some? ==>
        (r.value == cache[vId] && r.value.lastUsageTime == now &&
         r.value.completer == old(r.value.completer) && r.value.includeFolders == old(r.value.includeFolders))
    {
      if !validView {
        return None;
      }
      if vId in cache {
        var config := cache[vId];
        config.Touch(now);
        return Some(config);
      }
      return None;
    }

    /** `load_for_view(view, settings)`: updates the cached configuration
        or caches a new one, and takes over the settings' maximum age. */
    method LoadForView(validView: bool, vId: int, now: real, ess: Essentials, maxCacheAge: real,
                       files: ModificationCache, fileName: string, mtime: real)
      returns (r: Option<ViewConfig>)
      requires validView && vId in cache ==> ess.completer.Some?
      modifies this, cache.Values, files
      ensures !validView ==> r.None? && cache == old(cache) && maxConfigAge == old(maxConfigAge)
      ensures validView ==>
        (r.Some? && vId in cache && r.value == cache[vId] && maxConfigAge == maxCacheAge &&
         cache.Keys == old(cache.Keys) + {vId} && r.value.lastUsageTime == now)
      ensures validView && vId in old(cache) ==>
        (cache == old(cache) && r.value == old(cache[vId]) && !r.value.NeedsUpdate(ess.completer.value, ess.flags))
      ensures validView && vId !in old(cache) ==>
        (fresh(r.value) && (forall k :: k in old(cache) ==> cache[k] == old(cache[k])) &&
         (ess.completer.None? ==> r.value.completer.None?) &&
         (ess.completer.Some? ==> r.value.completer == Some(ess.completer.value.(clangFlags := ess.flags))))
    {
      if !validView {
        return None;
      }
      var res: ViewConfig;
      if vId in cache {
        res := cache[vId];
        var _ := res.UpdateIfNeeded(now, ess, files, fileName, mtime);
      } else {
        res := new ViewConfig(true, now, ess);
        cache := cache[vId := res];
      }
      maxConfigAge := maxCacheAge;
      return Some(res);
    }

    /** `clear_for_view(v_id)`: forgets that id only and returns it. */
    method ClearForView(vId: int) returns (id: int)
      modifies this
      ensures id == vId && cache == old(cache) - {vId} && maxConfigAge == old(maxConfigAge)
    {
      if vId in cache {
        cache := cache - {vId};
      }
      return vId;
    }

    /** The body of `__remove_old_configs` at time `now`: one sweep over the
        ids that drops exactly the configurations older than the maximum age. */
    method RemoveOldConfigs(now: real)
      modifies this
      ensures maxConfigAge == old(maxConfigAge)
      ensures forall k :: k in cache <==> k in old(cache) && !old(cache)[k].IsOlderThan(maxConfigAge, now)
      ensures forall k :: k in cache ==> cache[k] == old(cache)[k]
    {
      var ids := cache.Keys;
      while ids != {}
        invariant ids <= old(cache).Keys && maxConfigAge == old(maxConfigAge)
        invariant forall k :: k in cache <==>
          k in old(cache) && (k in ids || !old(cache)[k].IsOlderThan(maxConfigAge, now))
        invariant forall k :: k in cache ==> cache[k] == old(cache)[k]
        decreases ids
      {
        SomeId(ids);
        var vId :| vId in ids;
        if cache[vId].IsOlderThan(maxConfigAge, now) {
          cache := cache - {vId};
        }
        ids := ids - {vId};
      }
    }
  }

  /** A non-empty set of ids has one to pick. */
  lemma SomeId(ids: set<int>)
    requires ids != {}
    ensures exists id :: id in ids
  {
    if forall id :: id !in ids {
      assert false;
    }
  }

  /** After `clear_for_view(id)`, `get_from_cache` of that view gives None. */
  method ClearThenGet(m: ViewConfigManager, validView: bool, vId: int, now: real) returns (r: Option<ViewConfig>)
    modifies m
    ensures r.None?
  {
    var _ := m.ClearForView(vId);
    r := m.GetFromCache(validView, vId, now);
  }
}
