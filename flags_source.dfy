/** plugin/flags_sources/flags_source.py: the line parser every flags source
    shares, with include paths made absolute, and the cached lookup. */
module FlagsSources {
  import opened Wrappers
  import opened Strings
  import opened PyPath
  import opened Collections

  /** The index of the first prefix `flag` starts with, looking at the
      prefixes from `i` on. */
  function FirstPrefixFrom(flag: string, prefixes: seq<string>, i: nat): (r: Option<nat>)
    requires i <= |prefixes|
    ensures r.None? <==> forall k :: i <= k < |prefixes| ==> !StartsWith(flag, prefixes[k])
    ensures r.Some? ==> (i <= r.value < |prefixes| && StartsWith(flag, prefixes[r.value]) &&
      forall k :: i <= k < r.value ==> !StartsWith(flag, prefixes[k]))
    decreases |prefixes| - i
  {
    if i == |prefixes| then None
    else if StartsWith(flag, prefixes[i]) then Some(i)
    else FirstPrefixFrom(flag, prefixes, i + 1)
  }

  /** The path an include flag names, made absolute against `folder`. */
  function AbsoluteUnder(folder: string, includePath: string): (r: string)
    ensures IsAbs(includePath) ==> r == NormPath(includePath)
    ensures !IsAbs(includePath) ==> r == NormPath(PathJoin(folder, includePath))
  {
    if IsAbs(includePath) then NormPath(includePath) else NormPath(PathJoin(folder, includePath))
  }

  /** Against an absolute folder, the path an include flag names always
      comes out absolute. */
  lemma AbsoluteUnderIsAbs(folder: string, includePath: string)
    requires IsAbs(folder)
    ensures IsAbs(AbsoluteUnder(folder, includePath))
  {
    if IsAbs(includePath) {
      NormPathAbsolute(includePath);
    } else {
      NormPathAbsolute(PathJoin(folder, includePath));
    }
  }

  /** What `to_absolute_include_path(flag, include_prefixes)` computes: the
      first prefix the flag starts with is kept and the rest, stripped, is
      made absolute; a flag with no include prefix is returned as it is. */
  function IncludePathOf(folder: string, flag: string, prefixes: seq<string>): (r: string)
    ensures FirstPrefixFrom(flag, prefixes, 0).None? ==> r == flag
    ensures FirstPrefixFrom(flag, prefixes, 0).Some? ==>
      var p := prefixes[FirstPrefixFrom(flag, prefixes, 0).value];
      r == p + AbsoluteUnder(folder, StripWs(flag[|p|..]))
  {
    match FirstPrefixFrom(flag, prefixes, 0)
    case None => flag
    case Some(i) => prefixes[i] + AbsoluteUnder(folder, StripWs(flag[|prefixes[i]|..]))
  }

  /** Only the first matching prefix applies, even when a later one also
      matches: with "-I" before "-isystem", "-isystem/x" is read as "-I"
      followed by "system/x". */
  lemma IncludePathOfFirstWins(folder: string, flag: string, prefixes: seq<string>, i: nat)
    requires i < |prefixes| && StartsWith(flag, prefixes[i])
    requires forall k :: 0 <= k < i ==> !StartsWith(flag, prefixes[k])
    ensures IncludePathOf(folder, flag, prefixes) ==
      prefixes[i] + AbsoluteUnder(folder, StripWs(flag[|prefixes[i]|..]))
  {
  }

  /** `to_absolute_include_path`: a loop over the prefixes that returns at
      the first one the flag starts with. */
  method ToAbsoluteIncludePath(folder: string, flag: string, prefixes: seq<string>) returns (r: string)
    ensures r == IncludePathOf(folder, flag, prefixes)
  {
    var i := 0;
    while i < |prefixes|
      invariant 0 <= i <= |prefixes|
      invariant FirstPrefixFrom(flag, prefixes, 0) == FirstPrefixFrom(flag, prefixes, i)
    {
      var prefix := prefixes[i];
      if StartsWith(flag, prefix) {
        var includePath := StripWs(flag[|prefix|..]);
        if !IsAbs(includePath) {
          includePath := PathJoin(folder, includePath);
        }
        return prefix + NormPath(includePath);
      }
      i := i + 1;
    }
    return flag;
  }

  /** A line that is a comment once it is stripped. */
  predicate IsComment(line: string) {
    StartsWith(StripWs(line), "#")
  }

  /** What one line contributes: nothing for a comment, else the stripped line. */
  function KeptLine(line: string): seq<string> {
    if IsComment(line) then [] else [StripWs(line)]
  }

  /** The lines `parse_flags` keeps, stripped, in their order. */
  function NonComments(lines: seq<string>): seq<string> {
    ConcatMap(KeptLine, lines)
  }

  /** A string is kept exactly when it is some non-comment line, stripped. */
  lemma NonCommentsMember(lines: seq<string>, x: string)
    ensures x in NonComments(lines) <==> exists k :: 0 <= k < |lines| && !IsComment(lines[k]) && x == StripWs(lines[k])
  {
    ConcatMapMember(KeptLine, lines, x);
  }

  /** Without comment lines every line is kept, stripped, in its place;
      blank lines among them. */
  lemma {:induction false} NonCommentsAll(lines: seq<string>)
    requires forall k :: 0 <= k < |lines| ==> !IsComment(lines[k])
    ensures NonComments(lines) == MapSeq(StripWs, lines)
  {
    if lines != [] {
      var n := |lines| - 1;
      var pre := lines[..n];
      assert forall k :: 0 <= k < n ==> pre[k] == lines[k];
      NonCommentsAll(pre);
      assert KeptLine(lines[n]) == [StripWs(lines[n])];
    }
  }

  /** `parse_flags` never yields more flags than it is given lines. */
  lemma {:induction false} NonCommentsShorter(lines: seq<string>)
    ensures |NonComments(lines)| <= |lines|
  {
    if lines != [] {
      var n := |lines| - 1;
      NonCommentsShorter(lines[..n]);
      assert NonComments(lines) == NonComments(lines[..n]) + KeptLine(lines[n]);
    }
  }

  /** `FlagsSource.parse_flags(folder, lines, include_prefixes)` as a value. */
  function ParsedFlags(folder: string, lines: seq<string>, prefixes: seq<string>): seq<string> {
    MapSeq(l => IncludePathOf(folder, l, prefixes), NonComments(lines))
  }

  /** `FlagsSource.parse_flags`: one flag per line that is not a comment,
      in the order of the lines. */
  method ParseFlags(folder: string, lines: seq<string>, prefixes: seq<string>) returns (flags: seq<string>)
    ensures flags == ParsedFlags(folder, lines, prefixes)
  {
    var f := l => IncludePathOf(folder, l, prefixes);
    flags := [];
    var i := 0;
    while i < |lines|
      invariant 0 <= i <= |lines|
      invariant flags == MapSeq(f, NonComments(lines[..i]))
    {
      var line := StripWs(lines[i]);
      ghost var kept := NonComments(lines[..i]);
      ConcatMapSnoc(KeptLine, lines, i);
      assert NonComments(lines[..i + 1]) == kept + KeptLine(lines[i]);
      if !StartsWith(line, "#") {
        var flag := ToAbsoluteIncludePath(folder, line, prefixes);
        MapSeqAppendOne(f, kept, line);
        flags := flags + [flag];
      } else {
        assert kept + KeptLine(lines[i]) == kept;
      }
      i := i + 1;
    }
    assert lines[..i] == lines;
  }

  /** Every flag `parse_flags` gives comes from a non-comment line: either
      the stripped line itself, or an include prefix of it followed by an
      absolute or normalised path. */
  lemma ParsedFlagsOrigin(folder: string, lines: seq<string>, prefixes: seq<string>, k: nat)
    requires k < |ParsedFlags(folder, lines, prefixes)|
    ensures exists j :: (0 <= j < |lines| && !IsComment(lines[j]) &&
      ParsedFlags(folder, lines, prefixes)[k] == IncludePathOf(folder, StripWs(lines[j]), prefixes))
  {
    var kept := NonComments(lines);
    MapSeqIndex(l => IncludePathOf(folder, l, prefixes), kept, k);
    assert kept[k] in kept;
    NonCommentsMember(lines, kept[k]);
  }

  /** `_get_cached_from(file_path)`: the cached value of a non-empty path. */
  function CachedFrom<V>(cache: map<string, V>, path: Option<string>): (r: Option<V>)
    ensures r.Some? <==> path.Some? && path.value != "" && path.value in cache
    ensures r.Some? ==> r.value == cache[path.value]
  {
    if path.Some? && path.value != "" && path.value in cache then Some(cache[path.value]) else None
  }
}
