/** The upward folder search shared by `File.search`, `FlagsFile.__init__` and
    the `_search_clang_complete_file` helpers: start in a folder, look at it
    and at each parent in turn, stop one folder above the stop folder, and
    stop at the root. */
module FolderSearch {
  import opened Wrappers
  import opened PyPath

  /** The file system: each existing folder with the names it contains. */
  type FileSystem = map<Folder, set<string>>

  /** `os.listdir(f)`; a folder that is not known lists nothing. */
  function Entries(fs: FileSystem, f: Folder): set<string> {
    if f in fs then fs[f] else {}
  }

  /** `os.path.dirname(stop_folder)`, the folder the search must not reach.
      `None` stands for the empty path "", which the callers pass when the
      window has no folder: its dirname is "" again, which equals no folder,
      so the search then runs up to the root. */
  function OnePast(stop: Option<Folder>): (r: Option<Folder>)
    ensures stop.None? <==> r.None?
  {
    if stop.None? then None else Some(Parent(stop.value))
  }

  /** The folder the climbing loop stops at: the first folder `cur`, `Parent(cur)`,
      ... that satisfies `ok`, looking no further than `onePast` (excluded) and
      the root (included, unless it is `onePast`). */
  function ClimbFirst(ok: Folder -> bool, cur: Folder, onePast: Option<Folder>): Option<Folder>
    decreases |cur|
  {
    if onePast == Some(cur) then None
    else if ok(cur) then Some(cur)
    else if cur == [] then None
    else ClimbFirst(ok, Parent(cur), onePast)
  }

  /** `f` lies below or at the stop folder; below the empty stop path lies
      every folder. */
  predicate Below(f: Folder, stop: Option<Folder>) {
    stop.None? || Within(f, stop.value)
  }

  /** The shortest length of a folder the search visits below `stop`: the root
      is visited only when it is not the stop folder itself, and always when
      the stop path is empty. */
  function Lowest(stop: Option<Folder>): nat {
    if stop.None? then 0 else if stop.value == [] then 1 else |stop.value|
  }

  /** Whatever the stop folder, a found folder is the start folder or one of
      its ancestors, and it satisfies `ok`. */
  lemma {:induction false} ClimbFirstAncestor(ok: Folder -> bool, cur: Folder, onePast: Option<Folder>)
    ensures ClimbFirst(ok, cur, onePast).Some? ==>
      Within(cur, ClimbFirst(ok, cur, onePast).value) && ok(ClimbFirst(ok, cur, onePast).value)
    decreases |cur|
  {
    if onePast != Some(cur) && !ok(cur) && cur != [] {
      ClimbFirstAncestor(ok, Parent(cur), onePast);
      var r := ClimbFirst(ok, Parent(cur), onePast);
      if r.Some? {
        assert cur[..|r.value|] == Parent(cur)[..|r.value|];
      }
    }
  }

  /** With the start folder `from` below the stop folder `stop`, the search
      looks at `from[..m]`, `from[..m-1]`, ... down to `from[..Lowest(stop)]`
      and returns the deepest of them that satisfies `ok`, or None if none
      does. */
  lemma {:induction false} ClimbFirstBetween(ok: Folder -> bool, from: Folder, stop: Option<Folder>, m: nat)
    requires Below(from, stop) && Lowest(stop) <= m + 1 && m <= |from|
    ensures var r := ClimbFirst(ok, from[..m], OnePast(stop));
      (r.Some? ==> Lowest(stop) <= |r.value| <= m && r.value == from[..|r.value|] && ok(r.value) &&
                   forall k :: |r.value| < k <= m ==> !ok(from[..k])) &&
      (r.None? ==> forall k :: Lowest(stop) <= k <= m ==> !ok(from[..k]))
    decreases m
  {
    var cur := from[..m];
    if stop.Some? && m + 1 == Lowest(stop) {
      assert cur == Parent(stop.value);
    } else {
      if stop.Some? {
        assert |cur| != |Parent(stop.value)|;
      }
      if !ok(cur) && m > 0 {
        assert Parent(cur) == from[..m - 1];
        ClimbFirstBetween(ok, from, stop, m - 1);
      }
    }
  }

  /** The whole search from `from` below the stop folder. */
  lemma ClimbFirstSpec(ok: Folder -> bool, from: Folder, stop: Option<Folder>)
    requires Below(from, stop)
    ensures var r := ClimbFirst(ok, from, OnePast(stop));
      (r.Some? ==> Below(r.value, stop) && Lowest(stop) <= |r.value| && Within(from, r.value) && ok(r.value) &&
                   forall k :: |r.value| < k <= |from| ==> !ok(from[..k])) &&
      (r.None? ==> forall k :: Lowest(stop) <= k <= |from| ==> !ok(from[..k]))
  {
    ClimbFirstBetween(ok, from, stop, |from|);
    assert from[..|from|] == from;
    var r := ClimbFirst(ok, from, OnePast(stop));
    if r.Some? && stop.Some? {
      assert r.value[..|stop.value|] == from[..|stop.value|];
    }
  }
}
