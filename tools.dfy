/** plugin/tools.py: the file modification-time cache, canonical paths, the
    upward file search, search scopes, and the `Tools` helpers (durations,
    markdown lists, flag lookup, trigger decisions, AppleClang versions). */
module Tools {
  import opened Wrappers
  import opened Strings
  import opened PyPath
  import opened FolderSearch
  import Collections

  const LangC: string := "C"
  const LangCpp: string := "CPP"
  const LangObjectiveC: string := "OBJECTIVE_C"
  const LangObjectiveCpp: string := "OBJECTIVE_CPP"

  /** `Tools.LANG_TAGS` */
  const LangTags: seq<string> := [LangC, LangCpp, LangObjectiveC, LangObjectiveCpp]

  /** `Tools.LANG_NAMES`: the clang `-x` name of each language tag. */
  const LangNames: map<string, string> :=
    map[LangC := "c", LangCpp := "c++", LangObjectiveCpp := "objective-c++", LangObjectiveC := "objective-c"]

  /** `OSX_CLANG_VERSION_DICT`: AppleClang "major.minor" to the clang release it is based on. */
  const OsxClangVersions: map<string, string> :=
    map["4.2" := "3.2", "5.0" := "3.3", "5.1" := "3.4", "6.0" := "3.5", "6.1" := "3.6",
        "7.0" := "3.7", "7.3" := "3.8", "8.0" := "3.8", "8.1" := "3.9", "8.2" := "3.9",
        "9.0" := "4.0", "9.1" := "4.0", "10.0" := "6.0"]

  /** `PosStatus`, with its integer codes. */
  datatype PosStatus = CompletionNeeded | CompletionNotNeeded | WrongTrigger | CompleteIncludes {
    function Code(): (c: nat)
      ensures c < 4
    {
      match this
      case CompletionNeeded => 0
      case CompletionNotNeeded => 1
      case WrongTrigger => 2
      case CompleteIncludes => 3
    }
  }

  lemma PosStatusCodesDistinct(a: PosStatus, b: PosStatus)
    ensures a.Code() == b.Code() <==> a == b
  {
  }

  // ---------------------------------------------------------------------------
  // File: the class-level modification-time cache.

  /** One `File.is_unchanged(path)` step on the cache `times`, where the file's
      current modification time is `actual`: the answer and the new cache. */
  function CheckUnchanged(times: map<string, real>, path: string, actual: real): (r: (bool, map<string, real>))
    ensures path == "" ==> r == (false, times)
    ensures path != "" ==> r.1 == times[path := actual]
    ensures r.0 <==> path != "" && path in times && times[path] == actual
  {
    if path == "" then (false, times)
    else if path !in times then (false, times[path := actual])
    else if times[path] != actual then (false, times[path := actual])
    else (true, times)
  }

  /** A check that records a time makes the next check with that time succeed;
      a later change of the time makes it fail again. */
  lemma CheckUnchangedTwice(times: map<string, real>, path: string, actual: real, later: real)
    requires path != ""
    ensures CheckUnchanged(CheckUnchanged(times, path, actual).1, path, actual).0
    ensures CheckUnchanged(CheckUnchanged(times, path, actual).1, path, later).0 <==> later == actual
  {
  }

  /** `File.__modification_cache` with `is_unchanged` and `update_mod_time`. */
  class ModificationCache {
    var times: map<string, real>

    constructor ()
      ensures times == map[]
    {
      times := map[];
    }

    /** `File.is_unchanged(path)`, with the file's current mtime `actual`. */
    method IsUnchanged(path: string, actual: real) returns (same: bool)
      modifies this
      ensures path == "" ==> !same && times == old(times)
      ensures path != "" ==> times == old(times)[path := actual]
      ensures same <==> path != "" && path in old(times) && old(times)[path] == actual
      ensures (same, times) == CheckUnchanged(old(times), path, actual)
    {
      if path == "" {
        return false;
      }
      if path !in times {
        times := times[path := actual];
        return false;
      }
      if times[path] != actual {
        times := times[path := actual];
        return false;
      }
      return true;
    }

    /** `File.update_mod_time(path)` */
    method UpdateModTime(path: string, actual: real)
      modifies this
      ensures times == old(times)[path := actual]
    {
      times := times[path := actual];
    }
  }

  // ---------------------------------------------------------------------------
  // File.canonical_path

  /** `File.canonical_path(input, folder)`; `~` expansion is not modelled. */
  function CanonicalPath(input: string, folder: string): (r: Option<string>)
    ensures r.None? <==> input == ""
    ensures r.Some? && IsAbs(input) ==> r.value == NormPath(input)
    ensures r.Some? && !IsAbs(input) ==> r.value == NormPath(PathJoin(folder, input))
  {
    if input == "" then None else Some(NormPath(PathJoin(folder, input)))
  }

  /** An absolute input ignores the folder and gives an absolute path without
      ".", ".." or empty components. */
  lemma CanonicalPathAbsolute(input: string, folder1: string, folder2: string)
    requires IsAbs(input)
    ensures CanonicalPath(input, folder1) == CanonicalPath(input, folder2)
    ensures IsAbs(CanonicalPath(input, folder1).value)
    ensures CleanComps(NormalComponents(input), true)
  {
    NormPathAbsolute(input);
  }

  /** A relative input under an absolute folder becomes absolute. */
  lemma CanonicalPathRelative(input: string, folder: string)
    requires input != "" && !IsAbs(input) && IsAbs(folder)
    ensures IsAbs(CanonicalPath(input, folder).value)
  {
    NormPathAbsolute(PathJoin(folder, input));
  }

  // ---------------------------------------------------------------------------
  // SearchScope and File.search

  /** `SearchScope` of plugin/tools.py. */
  datatype SearchScope = SearchScope(from: Option<Folder>, to: Option<Folder>) {
    /** `SearchScope.valid()` */
    predicate Valid() {
      from.Some? && to.Some?
    }
  }

  /** `SearchScope(from_folder, to_folder)`: a missing folder defaults to the root. */
  function NewSearchScope(from: Option<Folder>, to: Option<Folder>): (s: SearchScope)
    ensures s.Valid()
    ensures s.from == (if from.Some? then from else Some([]))
    ensures s.to == (if to.Some? then to else Some([]))
  {
    SearchScope(if from.Some? then from else Some([]), if to.Some? then to else Some([]))
  }

  /** A folder holds `name` and, when queries are given, the file there
      satisfies one of them (`File.contains`, abstracted as `has`). */
  function FoundIn(fs: FileSystem, name: string, queries: seq<string>, has: (string, string) -> bool): Folder -> bool {
    f => name in Entries(fs, f) && (queries == [] || exists q :: q in queries && has(FileIn(f, name), q))
  }

  /** What `File.search(name, scope, queries)` returns: the path of the found file. */
  function SearchResult(fs: FileSystem, name: string, scope: SearchScope, queries: seq<string>,
                        has: (string, string) -> bool): Option<string>
    requires scope.Valid()
  {
    if scope.from.value !in fs then None
    else
      match ClimbFirst(FoundIn(fs, name, queries, has), scope.from.value, OnePast(scope.to))
      case None => None
      case Some(f) => Some(FileIn(f, name))
  }

  /** `File.search(file_name, search_scope, search_content)`. An empty
      `queries` stands for no search content; a single string is one query. */
  method Search(fs: FileSystem, name: string, scope: SearchScope, queries: seq<string>,
                has: (string, string) -> bool) returns (found: Option<string>)
    requires scope.Valid()
    ensures found == SearchResult(fs, name, scope, queries, has)
  {
    var current := scope.from.value;
    if current !in fs {
      return None;
    }
    var onePast := OnePast(scope.to);
    var ok := FoundIn(fs, name, queries, has);
    while onePast != Some(current)
      invariant ClimbFirst(ok, scope.from.value, onePast) == ClimbFirst(ok, current, onePast)
      decreases |current|
    {
      if name in Entries(fs, current) {
        if queries == [] {
          return Some(FileIn(current, name));
        }
        var i := 0;
        while i < |queries|
          invariant 0 <= i <= |queries|
          invariant forall k :: 0 <= k < i ==> !has(FileIn(current, name), queries[k])
        {
          if has(FileIn(current, name), queries[i]) {
            return Some(FileIn(current, name));
          }
          i := i + 1;
        }
      }
      if current == Parent(current) {
        break;
      }
      current := Parent(current);
    }
    return None;
  }

  /** With the stop folder above the start folder, `File.search` finds the
      file in the nearest folder, from the start folder upwards, that holds it
      and passes the content filter; it never looks above the stop folder nor
      at the root when the root is the stop folder. */
  lemma SearchFindsNearest(fs: FileSystem, name: string, scope: SearchScope, queries: seq<string>,
                           has: (string, string) -> bool)
    requires scope.Valid() && scope.from.value in fs && Within(scope.from.value, scope.to.value)
    ensures var from, to := scope.from.value, scope.to.value;
      var r := SearchResult(fs, name, scope, queries, has);
      (r.Some? ==> exists k :: Lowest(scope.to) <= k <= |from| && r.value == FileIn(from[..k], name) &&
                     FoundIn(fs, name, queries, has)(from[..k]) &&
                     forall j :: k < j <= |from| ==> !FoundIn(fs, name, queries, has)(from[..j])) &&
      (r.None? ==> forall k :: Lowest(scope.to) <= k <= |from| ==> !FoundIn(fs, name, queries, has)(from[..k]))
  {
    var from, to := scope.from.value, scope.to.value;
    var ok := FoundIn(fs, name, queries, has);
    ClimbFirstSpec(ok, from, scope.to);
    var c := ClimbFirst(ok, from, OnePast(scope.to));
    if c.Some? {
      var k := |c.value|;
      assert from[..k] == c.value;
    }
  }

  /** A start folder that does not exist finds nothing. */
  lemma SearchMissingStart(fs: FileSystem, name: string, scope: SearchScope, queries: seq<string>,
                           has: (string, string) -> bool)
    requires scope.Valid() && scope.from.value !in fs
    ensures SearchResult(fs, name, scope, queries, has) == None
  {
  }

  // ---------------------------------------------------------------------------
  // ActionRequest

  /** `ActionRequest(view, trigger_position)`, with the view's buffer id. */
  datatype ActionRequest = ActionRequest(bufferId: int, triggerPosition: int) {
    /** `ActionRequest.get_identifier()` */
    function Identifier(): (int, int) {
      (bufferId, triggerPosition)
    }
  }

  /** Two requests have the same identifier iff they are for the same buffer
      and position. */
  lemma IdentifierDistinguishes(a: ActionRequest, b: ActionRequest)
    ensures a.Identifier() == b.Identifier() <==> a == b
  {
  }

  // ---------------------------------------------------------------------------
  // Tools

  /** `Tools.to_md(error_list)`; an empty list raises `IndexError`. */
  function ToMd(errors: seq<string>): (r: Result<string>)
    ensures r.Err? <==> errors == []
    ensures |errors| == 1 ==> r == Ok(errors[0])
  {
    if |errors| > 1 then Ok("- " + Join(errors, "\n- "))
    else if |errors| == 1 then Ok(errors[0])
    else Err("IndexError: list index out of range")
  }

  function Bullets(errors: seq<string>): (r: seq<string>)
    ensures |r| == |errors| && forall i :: 0 <= i < |errors| ==> r[i] == "- " + errors[i]
  {
    if errors == [] then [] else ["- " + errors[0]] + Bullets(errors[1..])
  }

  /** For two or more errors, `to_md` is a markdown list: each error prefixed
      with "- ", one per line. */
  lemma {:induction false} ToMdList(errors: seq<string>)
    requires |errors| > 1
    ensures ToMd(errors) == Ok(Join(Bullets(errors), "\n"))
  {
    BulletsJoin(errors);
  }

  lemma {:induction false} BulletsJoin(errors: seq<string>)
    requires errors != []
    ensures "- " + Join(errors, "\n- ") == Join(Bullets(errors), "\n")
  {
    if |errors| > 1 {
      BulletsJoin(errors[1..]);
      assert Bullets(errors)[1..] == Bullets(errors[1..]);
      calc {
        "- " + Join(errors, "\n- ");
        "- " + (errors[0] + "\n- " + Join(errors[1..], "\n- "));
        ("- " + errors[0]) + "\n" + ("- " + Join(errors[1..], "\n- "));
        ("- " + errors[0]) + "\n" + Join(Bullets(errors[1..]), "\n");
      }
    }
  }

  /** `Tools.seconds_from_string("H:M:S")`; a wrong number of fields or a
      non-integer field raises `ValueError`. */
  function SecondsFromString(time: string): (r: Result<int>)
    ensures r.Ok? ==> |Split(time, ":")| == 3
  {
    SecondsFromParts(Split(time, ":"))
  }

  /** The fields of "H:M:S" once split at ':'. */
  function SecondsFromParts(parts: seq<string>): (r: Result<int>)
    ensures r.Ok? ==> |parts| == 3
  {
    if |parts| != 3 then Err("ValueError: expected H:M:S")
    else
      match (ParseInt(parts[0]), ParseInt(parts[1]), ParseInt(parts[2]))
      case (Some(h), Some(m), Some(s)) => Ok(h * 3600 + m * 60 + s)
      case _ => Err("ValueError: invalid literal for int()")
  }

  /** The fields of "H:M:S" count hours, minutes and seconds. */
  lemma SecondsFromStringValue(h: int, m: int, s: int)
    ensures SecondsFromString(IntToString(h) + ":" + IntToString(m) + ":" + IntToString(s))
         == Ok(h * 3600 + m * 60 + s)
  {
    var parts := [IntToString(h), IntToString(m), IntToString(s)];
    NoColonInInt(h);
    NoColonInInt(m);
    NoColonInInt(s);
    var time := Join(parts, ":");
    Join3(parts[0], parts[1], parts[2], ":");
    SplitJoinChar(parts, ':');
    ParseIntToString(h);
    ParseIntToString(m);
    ParseIntToString(s);
    SecondsFromFields(parts[0], parts[1], parts[2], h, m, s);
    assert SecondsFromString(time) == SecondsFromParts(parts);
  }

  lemma SecondsFromFields(a: string, b: string, c: string, x: int, y: int, z: int)
    requires ParseInt(a) == Some(x) && ParseInt(b) == Some(y) && ParseInt(c) == Some(z)
    ensures SecondsFromParts([a, b, c]) == Ok(x * 3600 + y * 60 + z)
  {
  }

  /** `Tools.find_flag_idx(flags, prefix)` */
  method FindFlagIdx(flags: seq<string>, prefix: string) returns (idx: Option<nat>)
    ensures idx.Some? ==> idx.value < |flags| && StartsWith(flags[idx.value], prefix)
    ensures idx.Some? ==> forall k :: 0 <= k < idx.value ==> !StartsWith(flags[k], prefix)
    ensures idx.None? ==> forall k :: 0 <= k < |flags| ==> !StartsWith(flags[k], prefix)
  {
    var i := 0;
    while i < |flags|
      invariant 0 <= i <= |flags|
      invariant forall k :: 0 <= k < i ==> !StartsWith(flags[k], prefix)
    {
      if StartsWith(flags[i], prefix) {
        return Some(i);
      }
      i := i + 1;
    }
    return None;
  }

  /** An editor view: its text, the word around a point and the line of a
      point (`view.word`, `view.line`, taken as given). */
  datatype View = View(text: string, word: int -> string, line: int -> string)

  /** `view.substr(point)`: the character right of `point`; out of range the
      editor answers with the NUL character. */
  function CharAt(view: View, point: int): (r: string)
    ensures |r| == 1
  {
    if 0 <= point < |view.text| then [view.text[point]] else "\0"
  }

  /** The character left of the cursor is the trigger's last character. */
  predicate LastCharMatches(view: View, point: int, trigger: string) {
    trigger != "" && CharAt(view, point - 1) == [trigger[|trigger| - 1]]
  }

  /** The trigger's first character also sits where the trigger would start. */
  predicate TriggerMatches(view: View, point: int, trigger: string) {
    LastCharMatches(view, point, trigger) && CharAt(view, point - |trigger|) == [trigger[0]]
  }

  /** What `trigger[-1]` raises on an empty trigger. */
  const EmptyTriggerError: string := "IndexError: string index out of range"

  /** `Tools.get_pos_status(point, view, settings)`. The loop raises at the
      first empty trigger it reaches, unless an earlier trigger matched in
      full and answered already. */
  method GetPosStatus(point: int, view: View, triggers: seq<string>, autocompleteAll: bool)
    returns (r: Result<PosStatus>)
    ensures var digit := IsDigits(view.word(point - 1));
      r.Err? <==> !digit && (exists k :: 0 <= k < |triggers| && triggers[k] == "" &&
                                  forall j :: 0 <= j < k ==> !TriggerMatches(view, point, triggers[j]))
    ensures r.Err? ==> r.message == EmptyTriggerError
    ensures r.Ok? ==>
      var status := r.value;
      var digit := IsDigits(view.word(point - 1));
      var full := exists k :: 0 <= k < |triggers| && TriggerMatches(view, point, triggers[k]);
      var last := exists k :: 0 <= k < |triggers| && LastCharMatches(view, point, triggers[k]);
      (status == WrongTrigger <==> digit || (!full && last)) &&
      (status == CompletionNeeded <==> !digit && (full || (!last && autocompleteAll))) &&
      (status == CompleteIncludes <==>
         !digit && !last && !autocompleteAll && StartsWith(view.line(point), "#include"))
  {
    if IsDigits(view.word(point - 1)) {
      return Ok(WrongTrigger);
    }
    var current := CharAt(view, point - 1);
    var wrongFound := false;
    var i := 0;
    while i < |triggers|
      invariant 0 <= i <= |triggers|
      invariant forall k :: 0 <= k < i ==> triggers[k] != ""
      invariant forall k :: 0 <= k < i ==> !TriggerMatches(view, point, triggers[k])
      invariant wrongFound <==> exists k :: 0 <= k < i && LastCharMatches(view, point, triggers[k])
    {
      var trigger := triggers[i];
      if trigger == "" {
        return Err(EmptyTriggerError);
      }
      if current == [trigger[|trigger| - 1]] {
        if CharAt(view, point - |trigger|) == [trigger[0]] {
          return Ok(CompletionNeeded);
        }
        wrongFound := true;
      }
      i := i + 1;
    }
    if wrongFound {
      return Ok(WrongTrigger);
    }
    if autocompleteAll {
      return Ok(CompletionNeeded);
    }
    if StartsWith(view.line(point), "#include") {
      return Ok(CompleteIncludes);
    }
    return Ok(CompletionNotNeeded);
  }

  /** The AppleClang "major.minor" key of a version string: its last
      "."-separated field is dropped. */
  function OsxVersionKey(version: string): string {
    KeyOfParts(Split(version, "."))
  }

  /** All fields of a version but the last, joined with '.'. */
  function KeyOfParts(parts: seq<string>): string
    requires parts != []
  {
    Join(parts[..|parts| - 1], ".")
  }

  lemma SplitThreeChar(x: string, y: string, z: string, c: char)
    requires c !in x && c !in y && c !in z
    ensures Split(x + [c] + y + [c] + z, [c]) == [x, y, z]
  {
    var tail := y + [c] + z;
    Collections.AppendAssoc(x + [c] + y, [c], z);
    Collections.AppendAssoc(x + [c], y, [c] + z);
    Collections.AppendAssoc(y, [c], z);
    SplitAtChar(x, c, tail);
    SplitTwoChar(y, z, c);
    assert [x] + [y, z] == [x, y, z];
  }

  lemma SplitTwoChar(x: string, y: string, c: char)
    requires c !in x && c !in y
    ensures Split(x + [c] + y, [c]) == [x, y]
  {
    SplitAtChar(x, c, y);
    SplitNoChar(y, c);
  }

  /** `Tools._get_apple_clang_version_str` after the version number has been
      found in the compiler output; an unknown key raises `KeyError`. */
  function AppleClangVersion(version: string): (r: Result<string>)
    ensures r.Ok? <==> OsxVersionKey(version) in OsxClangVersions
    ensures r.Ok? ==> r.value == OsxClangVersions[OsxVersionKey(version)]
  {
    var key := OsxVersionKey(version);
    if key in OsxClangVersions then Ok(OsxClangVersions[key])
    else Err("Version '" + key + "' of AppleClang is not supported yet")
  }

  /** "X.Y.Z" is looked up as "X.Y"; so 9.1.0 is clang 4.0 and 10.0.1 is clang 6.0. */
  lemma AppleClangDropsPatch(x: string, y: string, z: string)
    requires '.' !in x && '.' !in y && '.' !in z
    ensures OsxVersionKey(x + "." + y + "." + z) == x + "." + y
  {
    var dot := ".";
    assert dot == [dot[0]];
    SplitThreeChar(x, y, z, dot[0]);
    assert OsxVersionKey(x + "." + y + "." + z) == KeyOfParts([x, y, z]);
    assert [x, y, z][..2] == [x, y];
    assert [x, y][1..] == [y];
  }

  /** A two-field version "X.Y" is looked up as "X", which no entry has. */
  lemma AppleClangTwoFields(x: string, y: string)
    requires '.' !in x && '.' !in y
    ensures AppleClangVersion(x + "." + y).Err?
  {
    var dot := ".";
    assert dot == [dot[0]];
    SplitTwoChar(x, y, dot[0]);
    assert OsxVersionKey(x + "." + y) == KeyOfParts([x, y]);
    assert [x, y][..1] == [x];
    assert OsxVersionKey(x + "." + y) == x;
  }
}
