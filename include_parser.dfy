/** plugin/utils/include_parser.py: the header files offered when completing
    an `#include`, found by walking the include folders. */
module IncludeParser {
  import opened Wrappers
  import opened Strings
  import opened Collections
  import opened PyPath

  /** One triple of `os.walk(folder)`, without the names of the sub-folders,
      which `get_all_headers` never reads. */
  datatype WalkEntry = WalkEntry(root: string, filenames: seq<string>)

  /** The file system as `get_all_headers` sees it: `walk` is `os.walk`,
      `relPath` is `os.path.relpath` and `sep` is `os.path.sep`. */
  datatype FileSystem = FileSystem(
    walk: string -> seq<WalkEntry>,
    relPath: (string, string) -> string,
    sep: char)

  /** `[completion, match]` */
  datatype HeaderMatch = HeaderMatch(completion: string, path: string)

  // Sorting the folders by length

  predicate SortedByLen(s: seq<string>) {
    forall i, j :: 0 <= i < j < |s| ==> |s[i]| <= |s[j]|
  }

  /** The elements of `s` of length `k`, in their order. */
  function OfLength(s: seq<string>, k: nat): seq<string> {
    if s == [] then []
    else (if |s[0]| == k then [s[0]] else []) + OfLength(s[1..], k)
  }

  /** Puts `x` after every element not longer than it. */
  function InsertByLen(x: string, s: seq<string>): (r: seq<string>)
    ensures |r| == |s| + 1
    ensures multiset(r) == multiset(s) + multiset{x}
  {
    if s == [] then [x]
    else if |x| < |s[0]| then [x] + s
    else
      assert s == [s[0]] + s[1..];
      [s[0]] + InsertByLen(x, s[1..])
  }

  /** `folders.sort(key=len)`, a stable sort. */
  function SortByLen(s: seq<string>): (r: seq<string>)
    ensures multiset(r) == multiset(s)
  {
    if s == [] then []
    else
      assert s == s[..|s| - 1] + [s[|s| - 1]];
      InsertByLen(s[|s| - 1], SortByLen(s[..|s| - 1]))
  }

  lemma {:induction false} InsertByLenSorted(x: string, s: seq<string>)
    requires SortedByLen(s)
    ensures SortedByLen(InsertByLen(x, s))
    ensures InsertByLen(x, s) != [] && (InsertByLen(x, s)[0] == x || InsertByLen(x, s)[0] == s[0])
  {
    if s != [] && |x| >= |s[0]| {
      InsertByLenSorted(x, s[1..]);
    }
  }

  /** The folders come out ordered by length, shortest first. */
  lemma {:induction false} SortByLenSorted(s: seq<string>)
    ensures SortedByLen(SortByLen(s))
  {
    if s != [] {
      SortByLenSorted(s[..|s| - 1]);
      InsertByLenSorted(s[|s| - 1], SortByLen(s[..|s| - 1]));
    }
  }

  lemma {:induction false} OfLengthAppend(a: seq<string>, b: seq<string>, k: nat)
    ensures OfLength(a + b, k) == OfLength(a, k) + OfLength(b, k)
  {
    if a != [] {
      var head := if |a[0]| == k then [a[0]] else [];
      assert (a + b)[0] == a[0];
      assert (a + b)[1..] == a[1..] + b;
      OfLengthAppend(a[1..], b, k);
      calc {
        OfLength(a + b, k);
        head + OfLength(a[1..] + b, k);
        head + (OfLength(a[1..], k) + OfLength(b, k));
        (head + OfLength(a[1..], k)) + OfLength(b, k);
        OfLength(a, k) + OfLength(b, k);
      }
    } else {
      assert a + b == b;
    }
  }

  lemma {:induction false} OfLengthLonger(s: seq<string>, k: nat)
    requires forall i :: 0 <= i < |s| ==> |s[i]| > k
    ensures OfLength(s, k) == []
  {
    if s != [] {
      OfLengthLonger(s[1..], k);
    }
  }

  lemma OfLengthCons(x: string, s: seq<string>, k: nat)
    ensures OfLength([x] + s, k) == OfLength([x], k) + OfLength(s, k)
  {
    assert ([x] + s)[1..] == s;
  }

  lemma SortedTail(s: seq<string>)
    requires s != [] && SortedByLen(s)
    ensures SortedByLen(s[1..]) && forall i :: 0 <= i < |s| ==> |s[0]| <= |s[i]|
  {
    var rest := s[1..];
    forall i, j | 0 <= i < j < |rest| ensures |rest[i]| <= |rest[j]| {
      assert rest[i] == s[i + 1] && rest[j] == s[j + 1];
    }
  }

  /** Inserting in front of longer elements. */
  lemma OfLengthInsertFront(x: string, s: seq<string>, k: nat)
    requires s != [] && SortedByLen(s) && |x| < |s[0]|
    ensures OfLength([x] + s, k) == OfLength(s, k) + OfLength([x], k)
  {
    OfLengthCons(x, s, k);
    if |x| == k {
      SortedTail(s);
      OfLengthLonger(s, k);
    } else {
      assert OfLength([x], k) == [];
    }
  }

  lemma {:induction false} OfLengthInsert(x: string, s: seq<string>, k: nat)
    requires SortedByLen(s)
    ensures OfLength(InsertByLen(x, s), k) == OfLength(s, k) + OfLength([x], k)
  {
    if s == [] {
      assert [x] == [] + [x];
    } else if |x| < |s[0]| {
      OfLengthInsertFront(x, s, k);
    } else {
      var rest := s[1..];
      SortedTail(s);
      OfLengthInsert(x, rest, k);
      OfLengthCons(s[0], InsertByLen(x, rest), k);
      OfLengthCons(s[0], rest, k);
      assert [s[0]] + rest == s;
    }
  }

  /** The sort is stable: the folders of each length keep their order. */
  lemma {:induction false} SortByLenStable(s: seq<string>, k: nat)
    ensures OfLength(SortByLen(s), k) == OfLength(s, k)
  {
    if s != [] {
      var front, last := s[..|s| - 1], s[|s| - 1];
      SortByLenStable(front, k);
      SortByLenSorted(front);
      OfLengthInsert(last, SortByLen(front), k);
      assert s == front + [last];
      OfLengthAppend(front, [last], k);
    }
  }

  /** `to_platform_specific_paths(folders)`: every folder normalised, in
      place in the list. */
  method ToPlatformSpecificPaths(folders: seq<string>) returns (normalised: seq<string>)
    ensures normalised == MapSeq(NormPath, folders)
  {
    normalised := folders;
    var idx := 0;
    while idx < |normalised|
      invariant idx <= |normalised| == |folders|
      invariant forall k :: 0 <= k < idx ==> normalised[k] == NormPath(folders[k])
      invariant normalised[idx..] == folders[idx..]
    {
      assert normalised[idx] == folders[idx] by {
        assert normalised[idx..][0] == folders[idx..][0];
      }
      normalised := normalised[idx := NormPath(normalised[idx])];
      idx := idx + 1;
    }
    forall k | 0 <= k < |folders|
      ensures normalised[k] == MapSeq(NormPath, folders)[k]
    {
      MapSeqIndex(NormPath, folders, k);
    }
  }

  /** The folders in the order they are searched. */
  function PreparedFolders(folders: seq<string>, forceUnixIncludes: bool): seq<string> {
    var sorted := SortByLen(folders);
    if forceUnixIncludes then MapSeq(NormPath, sorted) else sorted
  }

  // File names and matches

  /** `fnmatch(filename, '*.*')`: the name holds a dot. */
  predicate HasDot(filename: string) {
    '.' in filename
  }

  /** `fnmatch(filename, '*.h*')`: a dot directly followed by 'h'. */
  predicate HeaderLike(filename: string) {
    exists i :: 0 <= i < |filename| - 1 && filename[i] == '.' && filename[i + 1] == 'h'
  }

  predicate Listable(filename: string) {
    !HasDot(filename) || HeaderLike(filename)
  }

  /** The relative path `get_match` computes. */
  function MatchPath(fs: FileSystem, filename: string, root: string, baseFolder: string, forceUnixIncludes: bool): string {
    var m := fs.relPath(PathJoin(root, filename), baseFolder);
    if forceUnixIncludes then Replace(m, [fs.sep], "/") else m
  }

  /** `get_match(filename, root, base_folder)` */
  function GetMatch(fs: FileSystem, filename: string, root: string, baseFolder: string, forceUnixIncludes: bool): HeaderMatch {
    var m := MatchPath(fs, filename, root, baseFolder, forceUnixIncludes);
    HeaderMatch(m + "\t" + baseFolder, m)
  }

  /** What the body of the innermost loop appends for `filename`. */
  function FileMatch(fs: FileSystem, prefix: string, forceUnixIncludes: bool, root: string, folder: string, filename: string): Option<HeaderMatch> {
    if !Listable(filename) then None
    else
      var g := GetMatch(fs, filename, root, folder, forceUnixIncludes);
      if g.path == "" || !StartsWith(g.path, prefix) then None else Some(g)
  }

  function FileMatches(fs: FileSystem, prefix: string, forceUnixIncludes: bool, root: string, folder: string): string -> seq<HeaderMatch> {
    filename => (var g := FileMatch(fs, prefix, forceUnixIncludes, root, folder, filename); if g.Some? then [g.value] else [])
  }

  /** The matches of one walked root. */
  function RootMatches(fs: FileSystem, prefix: string, forceUnixIncludes: bool, root: string, folder: string, filenames: seq<string>): seq<HeaderMatch> {
    ConcatMap(FileMatches(fs, prefix, forceUnixIncludes, root, folder), filenames)
  }

  /** Some folder from `start` on is a prefix of `root`. */
  predicate CoveredByLater(root: string, folders: seq<string>, start: nat) {
    exists idx :: start <= idx < |folders| && StartsWith(root, folders[idx])
  }

  function EntryMatches(fs: FileSystem, prefix: string, forceUnixIncludes: bool, folders: seq<string>, idx: nat, folder: string): WalkEntry -> seq<HeaderMatch> {
    (e: WalkEntry) => if CoveredByLater(e.root, folders, idx + 1) then []
         else RootMatches(fs, prefix, forceUnixIncludes, e.root, folder, e.filenames)
  }

  /** The matches found while walking folder `idx`. */
  function FolderMatches(fs: FileSystem, prefix: string, forceUnixIncludes: bool, folders: seq<string>, idx: nat): seq<HeaderMatch>
    requires idx < |folders|
  {
    ConcatMap(EntryMatches(fs, prefix, forceUnixIncludes, folders, idx, folders[idx]), fs.walk(folders[idx]))
  }

  /** The matches found while walking folder `idx`, none past the last. */
  function FolderMatchesAt(fs: FileSystem, prefix: string, forceUnixIncludes: bool, folders: seq<string>): nat -> seq<HeaderMatch> {
    (idx: nat) => if idx < |folders| then FolderMatches(fs, prefix, forceUnixIncludes, folders, idx) else []
  }

  /** The matches found while walking the first `n` folders. */
  function MatchesUpTo(fs: FileSystem, prefix: string, forceUnixIncludes: bool, folders: seq<string>, n: nat): seq<HeaderMatch>
    requires n <= |folders|
  {
    ConcatRange(FolderMatchesAt(fs, prefix, forceUnixIncludes, folders), n)
  }

  lemma MatchesUpToSnoc(fs: FileSystem, prefix: string, forceUnixIncludes: bool, folders: seq<string>, n: nat)
    requires n < |folders|
    ensures MatchesUpTo(fs, prefix, forceUnixIncludes, folders, n + 1) ==
      MatchesUpTo(fs, prefix, forceUnixIncludes, folders, n) + FolderMatches(fs, prefix, forceUnixIncludes, folders, n)
  {
  }

  /** `get_all_headers(folders, prefix, force_unix_includes, completion_request)` */
  function AllHeaders<T>(fs: FileSystem, folders: seq<string>, prefix: string, forceUnixIncludes: bool, completionRequest: T): (T, seq<HeaderMatch>) {
    var searched := PreparedFolders(folders, forceUnixIncludes);
    (completionRequest, MatchesUpTo(fs, prefix, forceUnixIncludes, searched, |searched|))
  }

  // The loops

  /** `is_root_duplicate(root, query_folder, folders, start_idx)` */
  method IsRootDuplicate(root: string, folders: seq<string>, startIdx: nat) returns (duplicate: bool)
    ensures duplicate <==> CoveredByLater(root, folders, startIdx)
  {
    var idx := startIdx;
    while idx < |folders|
      invariant startIdx <= idx || |folders| <= startIdx
      invariant forall k :: startIdx <= k < idx && k < |folders| ==> !StartsWith(root, folders[k])
    {
      if StartsWith(root, folders[idx]) {
        return true;
      }
      idx := idx + 1;
    }
    return false;
  }

  /** The loop over the file names of one root. */
  method MatchFiles(fs: FileSystem, prefix: string, forceUnixIncludes: bool, root: string, folder: string, filenames: seq<string>)
    returns (found: seq<HeaderMatch>)
    ensures found == RootMatches(fs, prefix, forceUnixIncludes, root, folder, filenames)
  {
    found := [];
    var i := 0;
    while i < |filenames|
      invariant i <= |filenames|
      invariant found == RootMatches(fs, prefix, forceUnixIncludes, root, folder, filenames[..i])
    {
      ConcatMapSnoc(FileMatches(fs, prefix, forceUnixIncludes, root, folder), filenames, i);
      var filename := filenames[i];
      var found1: Option<HeaderMatch> := None;
      if !HasDot(filename) {
        found1 := Some(GetMatch(fs, filename, root, folder, forceUnixIncludes));
      }
      if HeaderLike(filename) {
        found1 := Some(GetMatch(fs, filename, root, folder, forceUnixIncludes));
      }
      if found1.Some? && found1.value.path != "" && StartsWith(found1.value.path, prefix) {
        found := found + [found1.value];
      }
      i := i + 1;
    }
    assert filenames[..i] == filenames;
  }

  /** The loop over `os.walk(folder)` for folder `idx`. */
  method WalkFolder(fs: FileSystem, prefix: string, forceUnixIncludes: bool, folders: seq<string>, idx: nat)
    returns (found: seq<HeaderMatch>)
    requires idx < |folders|
    ensures found == FolderMatches(fs, prefix, forceUnixIncludes, folders, idx)
  {
    var entries := fs.walk(folders[idx]);
    found := [];
    var j := 0;
    while j < |entries|
      invariant j <= |entries|
      invariant found == ConcatMap(EntryMatches(fs, prefix, forceUnixIncludes, folders, idx, folders[idx]), entries[..j])
    {
      ConcatMapSnoc(EntryMatches(fs, prefix, forceUnixIncludes, folders, idx, folders[idx]), entries, j);
      var duplicate := IsRootDuplicate(entries[j].root, folders, idx + 1);
      if !duplicate {
        var more := MatchFiles(fs, prefix, forceUnixIncludes, entries[j].root, folders[idx], entries[j].filenames);
        found := found + more;
      }
      j := j + 1;
    }
    assert entries[..j] == entries;
  }

  /** `get_all_headers`: the request handed back unchanged, with the matches
      of every folder in turn. */
  method GetAllHeaders<T>(fs: FileSystem, folders: seq<string>, prefix: string, forceUnixIncludes: bool, completionRequest: T)
    returns (request: T, matches: seq<HeaderMatch>)
    ensures (request, matches) == AllHeaders(fs, folders, prefix, forceUnixIncludes, completionRequest)
    ensures request == completionRequest
  {
    var searched := SortByLen(folders);
    if forceUnixIncludes {
      searched := ToPlatformSpecificPaths(searched);
    }
    assert searched == PreparedFolders(folders, forceUnixIncludes);
    matches := [];
    var idx := 0;
    while idx < |searched|
      invariant idx <= |searched|
      invariant matches == MatchesUpTo(fs, prefix, forceUnixIncludes, searched, idx)
    {
      var more := WalkFolder(fs, prefix, forceUnixIncludes, searched, idx);
      MatchesUpToSnoc(fs, prefix, forceUnixIncludes, searched, idx);
      matches := matches + more;
      idx := idx + 1;
    }
    request := completionRequest;
  }

  // What is listed

  /** Of one root, exactly the listable file names whose match is non-empty
      and starts with the prefix give an entry. */
  lemma RootMember(fs: FileSystem, prefix: string, forceUnixIncludes: bool, root: string, folder: string, filenames: seq<string>, m: HeaderMatch)
    ensures m in RootMatches(fs, prefix, forceUnixIncludes, root, folder, filenames) <==>
      exists k :: 0 <= k < |filenames| && FileMatch(fs, prefix, forceUnixIncludes, root, folder, filenames[k]) == Some(m)
  {
    ConcatMapMember(FileMatches(fs, prefix, forceUnixIncludes, root, folder), filenames, m);
  }

  /** Of one folder, exactly the roots no later folder covers contribute. */
  lemma FolderMember(fs: FileSystem, prefix: string, forceUnixIncludes: bool, folders: seq<string>, idx: nat, m: HeaderMatch)
    requires idx < |folders|
    ensures m in FolderMatches(fs, prefix, forceUnixIncludes, folders, idx) <==>
      exists e :: e in fs.walk(folders[idx]) && !CoveredByLater(e.root, folders, idx + 1) &&
        m in RootMatches(fs, prefix, forceUnixIncludes, e.root, folders[idx], e.filenames)
  {
    var entries := fs.walk(folders[idx]);
    var f := EntryMatches(fs, prefix, forceUnixIncludes, folders, idx, folders[idx]);
    ConcatMapMember(f, entries, m);
    if exists e :: e in entries && !CoveredByLater(e.root, folders, idx + 1) &&
        m in RootMatches(fs, prefix, forceUnixIncludes, e.root, folders[idx], e.filenames) {
      var e :| e in entries && !CoveredByLater(e.root, folders, idx + 1) &&
        m in RootMatches(fs, prefix, forceUnixIncludes, e.root, folders[idx], e.filenames);
      var k :| 0 <= k < |entries| && entries[k] == e;
      assert m in f(entries[k]);
    }
  }

  /** A match is found exactly when some searched folder contributes it. */
  lemma MatchesUpToMember(fs: FileSystem, prefix: string, forceUnixIncludes: bool, folders: seq<string>, n: nat, m: HeaderMatch)
    requires n <= |folders|
    ensures m in MatchesUpTo(fs, prefix, forceUnixIncludes, folders, n) <==>
      exists idx :: 0 <= idx < n && m in FolderMatches(fs, prefix, forceUnixIncludes, folders, idx)
  {
    var g := FolderMatchesAt(fs, prefix, forceUnixIncludes, folders);
    ConcatRangeMember(g, n, m);
    if m in MatchesUpTo(fs, prefix, forceUnixIncludes, folders, n) {
      var i :| 0 <= i < n && m in g(i);
      assert m in FolderMatches(fs, prefix, forceUnixIncludes, folders, i);
    }
    if exists idx :: 0 <= idx < n && m in FolderMatches(fs, prefix, forceUnixIncludes, folders, idx) {
      var idx :| 0 <= idx < n && m in FolderMatches(fs, prefix, forceUnixIncludes, folders, idx);
      assert m in g(idx);
    }
  }

  /** Every kept file gives `[match + "\t" + folder, match]`, where the match
      starts with the prefix, is not empty, and comes from a name without a
      dot or one matching `*.h*`; with `force_unix_includes` and a separator
      other than '/', the match holds no separator. */
  lemma FileMatchShape(fs: FileSystem, prefix: string, forceUnixIncludes: bool, root: string, folder: string, filename: string)
    requires FileMatch(fs, prefix, forceUnixIncludes, root, folder, filename).Some?
    ensures var m := FileMatch(fs, prefix, forceUnixIncludes, root, folder, filename).value;
      m.path != "" && StartsWith(m.path, prefix) &&
      m.completion == m.path + "\t" + folder &&
      m.path == MatchPath(fs, filename, root, folder, forceUnixIncludes) &&
      ('.' !in filename || HeaderLike(filename)) &&
      (forceUnixIncludes && fs.sep != '/' ==> fs.sep !in m.path)
  {
    if forceUnixIncludes && fs.sep != '/' {
      ReplaceRemovesChar(fs.relPath(PathJoin(root, filename), folder), fs.sep, "/");
    }
  }

  /** A file is listed under folder `idx` exactly when it is walked from a
      root no later folder covers and is kept. */
  lemma ListedExactly(fs: FileSystem, prefix: string, forceUnixIncludes: bool, folders: seq<string>, m: HeaderMatch)
    ensures m in MatchesUpTo(fs, prefix, forceUnixIncludes, folders, |folders|) <==>
      exists idx, e, filename ::
        0 <= idx < |folders| && e in fs.walk(folders[idx]) && !CoveredByLater(e.root, folders, idx + 1) &&
        filename in e.filenames && FileMatch(fs, prefix, forceUnixIncludes, e.root, folders[idx], filename) == Some(m)
  {
    MatchesUpToMember(fs, prefix, forceUnixIncludes, folders, |folders|, m);
    if m in MatchesUpTo(fs, prefix, forceUnixIncludes, folders, |folders|) {
      var idx :| 0 <= idx < |folders| && m in FolderMatches(fs, prefix, forceUnixIncludes, folders, idx);
      FolderMember(fs, prefix, forceUnixIncludes, folders, idx, m);
      var e :| e in fs.walk(folders[idx]) && !CoveredByLater(e.root, folders, idx + 1) &&
        m in RootMatches(fs, prefix, forceUnixIncludes, e.root, folders[idx], e.filenames);
      RootMember(fs, prefix, forceUnixIncludes, e.root, folders[idx], e.filenames, m);
      var k :| 0 <= k < |e.filenames| && FileMatch(fs, prefix, forceUnixIncludes, e.root, folders[idx], e.filenames[k]) == Some(m);
      assert e.filenames[k] in e.filenames;
    }
    if exists idx, e, filename ::
        0 <= idx < |folders| && e in fs.walk(folders[idx]) && !CoveredByLater(e.root, folders, idx + 1) &&
        filename in e.filenames && FileMatch(fs, prefix, forceUnixIncludes, e.root, folders[idx], filename) == Some(m) {
      var idx, e, filename :|
        0 <= idx < |folders| && e in fs.walk(folders[idx]) && !CoveredByLater(e.root, folders, idx + 1) &&
        filename in e.filenames && FileMatch(fs, prefix, forceUnixIncludes, e.root, folders[idx], filename) == Some(m);
      var k :| 0 <= k < |e.filenames| && e.filenames[k] == filename;
      RootMember(fs, prefix, forceUnixIncludes, e.root, folders[idx], e.filenames, m);
      FolderMember(fs, prefix, forceUnixIncludes, folders, idx, m);
    }
  }

  /** Every entry `get_all_headers` returns has the shape of `FileMatchShape`
      for one of the searched folders. */
  lemma AllHeadersShape<T>(fs: FileSystem, folders: seq<string>, prefix: string, forceUnixIncludes: bool, completionRequest: T, m: HeaderMatch)
    requires m in AllHeaders(fs, folders, prefix, forceUnixIncludes, completionRequest).1
    ensures AllHeaders(fs, folders, prefix, forceUnixIncludes, completionRequest).0 == completionRequest
    ensures m.path != "" && StartsWith(m.path, prefix)
    ensures exists folder :: folder in PreparedFolders(folders, forceUnixIncludes) && m.completion == m.path + "\t" + folder
  {
    var searched := PreparedFolders(folders, forceUnixIncludes);
    ListedExactly(fs, prefix, forceUnixIncludes, searched, m);
    var idx, e, filename :|
      0 <= idx < |searched| && e in fs.walk(searched[idx]) && !CoveredByLater(e.root, searched, idx + 1) &&
      filename in e.filenames && FileMatch(fs, prefix, forceUnixIncludes, e.root, searched[idx], filename) == Some(m);
    FileMatchShape(fs, prefix, forceUnixIncludes, e.root, searched[idx], filename);
  }
}
