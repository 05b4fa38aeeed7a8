/** The `posixpath` functions the plugin uses (`os.path` on Linux and macOS),
    over plain strings, and component paths for upward folder searches. */
module PyPath {
  import opened Strings

  /** `os.path.isabs(p)` */
  predicate IsAbs(p: string) {
    StartsWith(p, "/")
  }

  /** `os.path.join(a, b)` */
  function PathJoin(a: string, b: string): (r: string)
    ensures IsAbs(b) ==> r == b
    ensures !IsAbs(b) ==> EndsWith(r, b) && StartsWith(r, a)
  {
    if IsAbs(b) then b
    else if a == "" || EndsWith(a, "/") then a + b
    else a + "/" + b
  }

  /** One step of `normpath`'s loop over the components of a path. */
  function NormStep(acc: seq<string>, c: string, rooted: bool): seq<string> {
    if c == "" || c == "." then acc
    else if c != ".." || (!rooted && acc == []) || (acc != [] && acc[|acc| - 1] == "..") then acc + [c]
    else if acc != [] then acc[..|acc| - 1]
    else acc
  }

  /** The loop of `normpath` over `comps`, starting with `acc`. */
  function NormComps(comps: seq<string>, acc: seq<string>, rooted: bool): seq<string>
    decreases |comps|
  {
    if comps == [] then acc else NormComps(comps[1..], NormStep(acc, comps[0], rooted), rooted)
  }

  /** A component list with no empty and no "." components; rooted lists have no "..". */
  predicate CleanComps(comps: seq<string>, rooted: bool) {
    forall k :: 0 <= k < |comps| ==> comps[k] != "" && comps[k] != "." && (rooted ==> comps[k] != "..")
  }

  function Slashes(n: nat): (r: string)
    ensures |r| == n && forall k :: 0 <= k < n ==> r[k] == '/'
  {
    if n == 0 then "" else "/" + Slashes(n - 1)
  }

  /** The number of leading slashes `normpath` keeps: two exactly, else at most one. */
  function LeadingSlashes(p: string): nat {
    if !StartsWith(p, "/") then 0
    else if StartsWith(p, "//") && !StartsWith(p, "///") then 2
    else 1
  }

  /** The components `normpath` keeps. */
  function NormalComponents(p: string): seq<string> {
    NormComps(Split(p, "/"), [], LeadingSlashes(p) > 0)
  }

  /** `os.path.normpath(p)` */
  function NormPath(p: string): (r: string)
    ensures r != []
  {
    if p == "" then "."
    else
      var r := Slashes(LeadingSlashes(p)) + Join(NormalComponents(p), "/");
      if r == "" then "." else r
  }

  lemma {:induction false} NormCompsClean(comps: seq<string>, acc: seq<string>, rooted: bool)
    requires CleanComps(acc, rooted)
    ensures CleanComps(NormComps(comps, acc, rooted), rooted)
    decreases |comps|
  {
    if comps != [] {
      var next := NormStep(acc, comps[0], rooted);
      assert CleanComps(next, rooted);
      NormCompsClean(comps[1..], next, rooted);
    }
  }

  /** `normpath` keeps an absolute path absolute, and what follows the slashes
      holds no empty, "." or ".." component. */
  lemma NormPathAbsolute(p: string)
    requires IsAbs(p)
    ensures IsAbs(NormPath(p))
    ensures CleanComps(NormalComponents(p), true)
  {
    NormCompsClean(Split(p, "/"), [], true);
    var r := Slashes(LeadingSlashes(p)) + Join(NormalComponents(p), "/");
    assert r[0] == '/';
  }

  /** `os.path.abspath(p)` with the working directory `cwd` given. */
  function AbsPath(p: string, cwd: string): string {
    NormPath(PathJoin(cwd, p))
  }

  /** The index just past the last '/' in `p`. */
  function SplitIndex(p: string): (i: nat)
    ensures i <= |p|
    ensures forall k :: i <= k < |p| ==> p[k] != '/'
    ensures i > 0 ==> p[i - 1] == '/'
  {
    LastIndexOf(p, '/') + 1
  }

  predicate AllSlashes(s: string) {
    forall k :: 0 <= k < |s| ==> s[k] == '/'
  }

  /** `os.path.dirname(p)` */
  function Dirname(p: string): (r: string)
    ensures |r| <= |p| && StartsWith(p, r)
  {
    var head := p[..SplitIndex(p)];
    if head != "" && !AllSlashes(head) then RStrip(head, {'/'}) else head
  }

  /** `os.path.basename(p)` */
  function Basename(p: string): (r: string)
    ensures '/' !in r && EndsWith(p, r)
  {
    p[SplitIndex(p)..]
  }

  /** The directory and the base name put back together give the path. */
  lemma DirnameBasenameRebuild(p: string)
    ensures p == p[..SplitIndex(p)] + Basename(p)
  {
  }

  /** `os.path.splitext(p)`: the last '.' after the last '/' and after the
      leading dots of the base name starts the extension. */
  function SplitExt(p: string): (r: (string, string))
    ensures r.0 + r.1 == p
    ensures r.1 != [] ==> r.1[0] == '.' && '/' !in r.1
  {
    var sep := LastIndexOf(p, '/');
    var dot := LastIndexOf(p, '.');
    if dot > sep && exists k :: sep + 1 <= k < dot && p[k] != '.' then
      (p[..dot], p[dot..])
    else
      (p, "")
  }

  /** A folder as its list of components below the root; the root is []. */
  type Folder = seq<string>

  /** `os.path.dirname` on a folder: the root is its own parent. */
  function Parent(f: Folder): (r: Folder)
    ensures f != [] ==> |r| == |f| - 1 && r == f[..|f| - 1]
    ensures f == [] ==> r == []
  {
    if f == [] then [] else f[..|f| - 1]
  }

  /** `f` lies below or at `top`. */
  predicate Within(f: Folder, top: Folder) {
    |top| <= |f| && f[..|top|] == top
  }

  /** The text form of a folder. */
  function FolderString(f: Folder): string {
    "/" + Join(f, "/")
  }

  /** A file name inside a folder, as `os.path.join(folder, name)`. */
  function FileIn(f: Folder, name: string): string {
    PathJoin(FolderString(f), name)
  }
}
