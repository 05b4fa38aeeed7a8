/** plugin/completion/flags_file.py: a `.clang_complete` file found by
    climbing folders, re-read only when its modification time grows. The
    folder search and the line rules here are also those of the
    `_search_clang_complete_file` and `_parse_clang_complete_file` helpers
    of the two completers. */
module FlagsFiles {
  import opened Wrappers
  import opened Strings
  import opened PyPath
  import opened Collections
  import opened FolderSearch

  const ClangCompleteName: string := ".clang_complete"

  // ---------------------------------------------------------------------------
  // The upward search

  /** The folder test of the search: the folder lists a `.clang_complete`. */
  function HasClangComplete(fs: FileSystem): Folder -> bool {
    f => ClangCompleteName in Entries(fs, f)
  }

  /** The search loop: from `start` upwards, never to the parent of `stop`,
      and no further than the root. */
  method FindClangComplete(fs: FileSystem, start: Folder, stop: Option<Folder>) returns (found: Option<Folder>)
    ensures found == ClimbFirst(HasClangComplete(fs), start, OnePast(stop))
  {
    var current := start;
    var onePast := OnePast(stop);
    while onePast != Some(current)
      invariant ClimbFirst(HasClangComplete(fs), start, onePast) == ClimbFirst(HasClangComplete(fs), current, onePast)
      decreases |current|
    {
      if ClangCompleteName in Entries(fs, current) {
        return Some(current);
      }
      if current == Parent(current) {
        break;
      }
      current := Parent(current);
    }
    return None;
  }

  /** When the stop folder lies above the start folder, the search finds the
      nearest folder between the two, from the start folder up, that holds a
      `.clang_complete`, and otherwise finds nothing; the root is looked at
      unless it is the stop folder's parent. */
  lemma FindClangCompleteNearest(fs: FileSystem, start: Folder, stop: Option<Folder>)
    requires Below(start, stop)
    ensures var r := ClimbFirst(HasClangComplete(fs), start, OnePast(stop));
      (r.Some? ==> Below(r.value, stop) && Within(start, r.value) && ClangCompleteName in Entries(fs, r.value) &&
                   forall k :: |r.value| < k <= |start| ==> ClangCompleteName !in Entries(fs, start[..k])) &&
      (r.None? ==> forall k :: Lowest(stop) <= k <= |start| ==> ClangCompleteName !in Entries(fs, start[..k]))
  {
    var ok := HasClangComplete(fs);
    ClimbFirstSpec(ok, start, stop);
    var r := ClimbFirst(ok, start, OnePast(stop));
    forall k | Lowest(stop) <= k <= |start| && (r.None? || |r.value| < k)
      ensures ClangCompleteName !in Entries(fs, start[..k])
    {
      assert !ok(start[..k]);
    }
  }

  /** With the empty stop path (a window without a folder) the search runs up
      to the root and looks at it, so a `.clang_complete` in the root is
      always found; with the root itself as the stop folder the root is never
      looked at. */
  lemma FindClangCompleteEmptyStop(fs: FileSystem, start: Folder)
    requires ClangCompleteName in Entries(fs, [])
    ensures ClimbFirst(HasClangComplete(fs), start, OnePast(None)).Some?
    ensures ClimbFirst(HasClangComplete(fs), start, OnePast(Some([]))) != Some([])
  {
    FindClangCompleteNearest(fs, start, None);
    assert start[..0] == [];
    ClimbFirstAncestor(HasClangComplete(fs), start, OnePast(Some([])));
  }

  // ---------------------------------------------------------------------------
  // The line rules

  /** `'-I{}'`, or `'-I "{}"'` when includes are kept apart. */
  function IncludeFlag(path: string, separate: bool): string {
    if separate then "-I \"" + path + "\"" else "-I" + path
  }

  /** The path of an include line: the text after "-I" without trailing
      whitespace, normalised when absolute, else joined to the folder. */
  function IncludePath(folder: string, line: string): string
    requires StartsWith(line, "-I")
  {
    var p := RStripWs(line[2..]);
    if IsAbs(p) then NormPath(p) else PathJoin(folder, p)
  }

  /** What one line of the file gives: a "-D" line itself, newline and all;
      an "-I" line its include flag; any other line nothing. */
  function LineFlag(folder: string, line: string, separate: bool): (r: seq<string>)
    ensures |r| <= 1
  {
    if StartsWith(line, "-D") then [line]
    else if StartsWith(line, "-I") then [IncludeFlag(IncludePath(folder, line), separate)]
    else []
  }

  /** The flags the lines give, in their order. */
  function ParsedLines(folder: string, lines: seq<string>, separate: bool): seq<string> {
    ConcatMap(line => LineFlag(folder, line, separate), lines)
  }

  /** A line that gives a flag. */
  predicate Kept(line: string) {
    StartsWith(line, "-D") || StartsWith(line, "-I")
  }

  /** The number of lines that give a flag. */
  function KeptCount(lines: seq<string>): nat {
    if lines == [] then 0 else KeptCount(lines[..|lines| - 1]) + (if Kept(lines[|lines| - 1]) then 1 else 0)
  }

  /** One flag per "-D" or "-I" line and none for any other line. */
  lemma {:induction false} ParsedLinesCount(folder: string, lines: seq<string>, separate: bool)
    ensures |ParsedLines(folder, lines, separate)| == KeptCount(lines)
  {
    if lines != [] {
      ParsedLinesCount(folder, lines[..|lines| - 1], separate);
    }
  }

  /** The flags keep the order of their lines: the `k`-th kept line gives the
      `k`-th flag. */
  lemma {:induction false} ParsedLinesAt(folder: string, lines: seq<string>, separate: bool, i: nat)
    requires i < |lines| && Kept(lines[i])
    ensures var r := ParsedLines(folder, lines, separate);
      KeptCount(lines[..i]) < |r| && r[KeptCount(lines[..i])] == LineFlag(folder, lines[i], separate)[0]
    decreases |lines|
  {
    var f := line => LineFlag(folder, line, separate);
    var n := |lines| - 1;
    var front := lines[..n];
    ParsedLinesCount(folder, lines[..i], separate);
    ParsedLinesCount(folder, lines, separate);
    if i < n {
      assert front[..i] == lines[..i];
      ParsedLinesAt(folder, front, separate, i);
      assert ParsedLines(folder, lines, separate) == ParsedLines(folder, front, separate) + f(lines[n]);
    } else {
      assert front == lines[..i];
      assert ParsedLines(folder, lines, separate) == ParsedLines(folder, front, separate) + f(lines[n]);
    }
  }

  /** Every flag is a line kept verbatim that starts with "-D", or an
      include flag made from an "-I" line. */
  lemma ParsedLinesOrigin(folder: string, lines: seq<string>, separate: bool, x: string)
    requires x in ParsedLines(folder, lines, separate)
    ensures exists k ::
              0 <= k < |lines| &&
              ((StartsWith(lines[k], "-D") && x == lines[k]) ||
               (!StartsWith(lines[k], "-D") && StartsWith(lines[k], "-I") &&
                x == IncludeFlag(IncludePath(folder, lines[k]), separate)))
  {
    ConcatMapMember(line => LineFlag(folder, line, separate), lines, x);
  }

  /** The loop `for line in content:` of the parsers. */
  method ParseLines(folder: string, lines: seq<string>, separate: bool) returns (flags: seq<string>)
    ensures flags == ParsedLines(folder, lines, separate)
  {
    var f := line => LineFlag(folder, line, separate);
    flags := [];
    var i := 0;
    while i < |lines|
      invariant 0 <= i <= |lines|
      invariant flags == ConcatMap(f, lines[..i])
    {
      ConcatMapSnoc(f, lines, i);
      var line := lines[i];
      if StartsWith(line, "-D") {
        flags := flags + [line];
      } else if StartsWith(line, "-I") {
        var pathToAdd := RStripWs(line[2..]);
        if IsAbs(pathToAdd) {
          flags := flags + [IncludeFlag(NormPath(pathToAdd), separate)];
        } else {
          flags := flags + [IncludeFlag(PathJoin(folder, pathToAdd), separate)];
        }
      }
      i := i + 1;
    }
    assert lines[..|lines|] == lines;
  }

  /** The flags of `FlagsFile.parse_flags(file, separate_includes)`, where
      `lines` is what `readlines` gives for the file: none without a file. */
  function FileFlags(file: Option<string>, lines: seq<string>, separate: bool): (r: seq<string>)
    ensures file.None? || file.value == "" ==> r == []
  {
    if file.None? || file.value == "" then [] else ParsedLines(Dirname(file.value), lines, separate)
  }

  /** `FlagsFile.parse_flags(file, separate_includes)` */
  method ParseFlags(file: Option<string>, lines: seq<string>, separate: bool) returns (flags: seq<string>)
    ensures flags == FileFlags(file, lines, separate)
  {
    if file.None? || file.value == "" {
      return [];
    }
    flags := ParseLines(Dirname(file.value), lines, separate);
  }

  // ---------------------------------------------------------------------------
  // FlagsFile

  /** One `was_modified()` check with the file's current time `actual`: the
      answer and the time recorded afterwards. */
  function Modified(file: Option<string>, last: real, actual: real): (r: (bool, real))
    ensures file.None? || file.value == "" ==> r == (false, last)
    ensures r.0 <==> file.Some? && file.value != "" && actual > last
    ensures r.1 == if r.0 then actual else last
  {
    if file.None? || file.value == "" then (false, last)
    else if actual > last then (true, actual)
    else (false, last)
  }

  /** A check records the newer time, so a second check at the same time
      answers False; the recorded time never decreases. */
  lemma ModifiedTwice(file: Option<string>, last: real, actual: real)
    ensures var (_, seen) := Modified(file, last, actual);
      !Modified(file, seen, actual).0 && seen >= last
  {
  }

  /** Python's truth value of the cached flags: None and [] are false. */
  predicate HasFlags(flags: Option<seq<string>>) {
    flags.Some? && flags.value != []
  }

  class FlagsFile {
    /** The path of the file found, or None. */
    var clangCompleteFile: Option<string>
    /** The flags of the last parse, or None before the first. */
    var customFlags: Option<seq<string>>
    /** The modification time last seen. */
    var lastModificationTime: real

    /** `FlagsFile(from_folder, to_folder)`: the upward search; a found file's
        time (`mtime` of its path) is recorded. */
    constructor (fs: FileSystem, from: Folder, to: Option<Folder>, mtime: string -> real)
      ensures var f := ClimbFirst(HasClangComplete(fs), from, OnePast(to));
        clangCompleteFile == (if f.Some? then Some(FileIn(f.value, ClangCompleteName)) else None) &&
        lastModificationTime == (if f.Some? then mtime(FileIn(f.value, ClangCompleteName)) else 0.0)
      ensures customFlags == None
    {
      clangCompleteFile := None;
      customFlags := None;
      lastModificationTime := 0.0;
      new;
      var found := FindClangComplete(fs, from, to);
      if found.Some? {
        clangCompleteFile := Some(FileIn(found.value, ClangCompleteName));
        lastModificationTime := mtime(FileIn(found.value, ClangCompleteName));
      }
    }

    /** `was_modified()`, with `actual` the file's current modification time. */
    method WasModified(actual: real) returns (modified: bool)
      modifies this
      ensures (modified, lastModificationTime) == Modified(clangCompleteFile, old(lastModificationTime), actual)
      ensures clangCompleteFile == old(clangCompleteFile) && customFlags == old(customFlags)
    {
      if clangCompleteFile.None? || clangCompleteFile.value == "" {
        return false;
      }
      if actual > lastModificationTime {
        lastModificationTime := actual;
        return true;
      }
      return false;
    }

    /** `get_flags(separate_includes)`, with `actual` the file's current time
        and `lines` its current lines. The modification check runs only when
        there are cached flags; the file is parsed again when there are none
        or it was modified, and otherwise the cached flags are returned. */
    method GetFlags(separate: bool, actual: real, lines: seq<string>) returns (flags: seq<string>)
      modifies this
      ensures var check := Modified(clangCompleteFile, old(lastModificationTime), actual);
        var reparse := !HasFlags(old(customFlags)) || check.0;
        customFlags == Some(flags) &&
        (reparse ==> flags == FileFlags(clangCompleteFile, lines, separate)) &&
        (!reparse ==> flags == old(customFlags).value) &&
        lastModificationTime == (if HasFlags(old(customFlags)) then check.1 else old(lastModificationTime))
      ensures clangCompleteFile == old(clangCompleteFile)
    {
      var reparse := true;
      if HasFlags(customFlags) {
        reparse := WasModified(actual);
      }
      if reparse {
        var parsed := ParseFlags(clangCompleteFile, lines, separate);
        customFlags := Some(parsed);
      }
      flags := customFlags.value;
    }
  }
}
