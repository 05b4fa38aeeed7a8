/** plugin/libclang_complete.py: completion snippets built from libclang's
    completion chunks, and the map from view ids to translation units. */
module LibClang {
  import opened Wrappers
  import opened Strings
  import opened PyPath
  import opened FolderSearch
  import opened Collections
  import FlagsFiles

  // ---------------------------------------------------------------------------
  // Chunks and snippets

  /** The chunk kinds `_process_completions` tells apart; `Text` is every
      other kind. */
  datatype ChunkKind = TypedText | ResultType | Optional | Informative | Placeholder | Text

  /** One chunk of a completion string: its kind and spelling. */
  datatype Chunk = Chunk(kind: ChunkKind, spelling: string)

  /** `[trigger + "\t" + hint, contents]` */
  datatype Completion = Completion(shown: string, contents: string)

  /** The chunks whose spelling stays out of the contents. */
  predicate Hidden(c: Chunk) {
    c.kind == ResultType || c.kind == Optional || c.kind == Informative
  }

  /** What one chunk adds to the hint: its spelling, and a space after a
      result type. */
  function ChunkHint(c: Chunk): string {
    if c.kind == ResultType then c.spelling + " " else c.spelling
  }

  /** The hint of a completion string. */
  function Hint(cs: seq<Chunk>): string {
    if cs == [] then "" else ChunkHint(cs[0]) + Hint(cs[1..])
  }

  /** `${n:spelling}` */
  function PlaceholderText(n: nat, spelling: string): string {
    "${" + NatToString(n) + ":" + spelling + "}"
  }

  /** What one chunk adds to the contents when the next placeholder is
      number `n`. */
  function ChunkContent(c: Chunk, n: nat): string {
    if Hidden(c) then "" else if c.kind == Placeholder then PlaceholderText(n, c.spelling) else c.spelling
  }

  function PlaceholderCount(cs: seq<Chunk>): nat {
    if cs == [] then 0 else (if cs[0].kind == Placeholder then 1 else 0) + PlaceholderCount(cs[1..])
  }

  /** The contents of the chunks when the first placeholder is number `n`. */
  function ContentsFrom(cs: seq<Chunk>, n: nat): string {
    if cs == [] then ""
    else ChunkContent(cs[0], n) + ContentsFrom(cs[1..], if cs[0].kind == Placeholder then n + 1 else n)
  }

  /** The contents of a completion string: placeholders count from 1. */
  function Contents(cs: seq<Chunk>): string {
    ContentsFrom(cs, 1)
  }

  /** The trigger after the chunks: the last typed-text spelling, or the
      trigger from before when there is none. */
  function Trigger(cs: seq<Chunk>, prior: Option<string>): Option<string> {
    if cs == [] then prior else Trigger(cs[1..], if cs[0].kind == TypedText then Some(cs[0].spelling) else prior)
  }

  /** The completions of the results, in order, with `trigger` the value
      the variable holds before the first result. The variable is not reset
      between results, and reading it before any typed text has set it
      raises NameError. */
  function Completions(rs: seq<seq<Chunk>>, trigger: Option<string>): Result<seq<Completion>> {
    if rs == [] then Ok([])
    else
      var t := Trigger(rs[0], trigger);
      if t.None? then Err("NameError: trigger")
      else Prepend([Completion(t.value + "\t" + Hint(rs[0]), Contents(rs[0]))], Completions(rs[1..], t))
  }

  function Prepend<T>(xs: seq<T>, r: Result<seq<T>>): (p: Result<seq<T>>)
    ensures p.Ok? <==> r.Ok?
    ensures p.Ok? ==> p.value == xs + r.value
    ensures r.Err? || xs == [] ==> p == r
  {
    if r.Ok? then
      assert xs == [] ==> xs + r.value == r.value;
      Ok(xs + r.value)
    else r
  }

  /** `_process_completions(complete_results)`: one pass over the results;
      each result's chunks are handled by `ProcessResult`. */
  method ProcessCompletions(rs: seq<seq<Chunk>>) returns (r: Result<seq<Completion>>)
    ensures r == Completions(rs, None)
  {
    var completions: seq<Completion> := [];
    var trigger: Option<string> := None;
    var i := 0;
    assert rs[i..] == rs;
    while i < |rs|
      invariant 0 <= i <= |rs|
      invariant Completions(rs, None) == Prepend(completions, Completions(rs[i..], trigger))
    {
      ghost var before := trigger;
      var hint, contents;
      hint, contents, trigger := ProcessResult(rs[i], trigger);
      assert rs[i..][0] == rs[i] && rs[i..][1..] == rs[i + 1..];
      if trigger.None? {
        return Err("NameError: trigger");
      }
      var entry := Completion(trigger.value + "\t" + hint, contents);
      assert Completions(rs[i..], before) == Prepend([entry], Completions(rs[i + 1..], trigger));
      if Completions(rs[i + 1..], trigger).Ok? {
        AppendAssoc(completions, [entry], Completions(rs[i + 1..], trigger).value);
      }
      completions := completions + [entry];
      i := i + 1;
    }
    assert rs[i..] == [] && completions + [] == completions;
    r := Ok(completions);
  }

  /** The inner loop of `_process_completions` over one result's chunks,
      with `trigger` the value the variable held before. */
  method ProcessResult(c: seq<Chunk>, trigger: Option<string>) returns (hint: string, contents: string, after: Option<string>)
    ensures hint == Hint(c) && contents == Contents(c) && after == Trigger(c, trigger)
  {
    hint := "";
    contents := "";
    after := trigger;
    var placeHolders: nat := 1;
    var j := 0;
    while j < |c|
      invariant 0 <= j <= |c|
      invariant Hint(c) == hint + Hint(c[j..])
      invariant Contents(c) == contents + ContentsFrom(c[j..], placeHolders)
      invariant Trigger(c, trigger) == Trigger(c[j..], after)
    {
      var chunk := c[j];
      assert c[j..][0] == chunk && c[j..][1..] == c[j + 1..];
      ghost var next: nat := if chunk.kind == Placeholder then placeHolders + 1 else placeHolders;
      ghost var piece := ChunkContent(chunk, placeHolders);
      assert ContentsFrom(c[j..], placeHolders) == piece + ContentsFrom(c[j + 1..], next);
      AppendAssoc(contents, piece, ContentsFrom(c[j + 1..], next));
      AppendAssoc(hint, ChunkHint(chunk), Hint(c[j + 1..]));
      ghost var before := contents;
      ghost var hintBefore := hint;
      ghost var newTrigger := if chunk.kind == TypedText then Some(chunk.spelling) else after;
      assert Trigger(c[j..], after) == Trigger(c[j + 1..], newTrigger);
      hint := hint + chunk.spelling;
      if chunk.kind == TypedText {
        after := Some(chunk.spelling);
      }
      if chunk.kind == ResultType {
        hint := hint + " ";
      } else if chunk.kind == Optional || chunk.kind == Informative {
      } else if chunk.kind == Placeholder {
        contents := contents + PlaceholderText(placeHolders, chunk.spelling);
        placeHolders := placeHolders + 1;
      } else {
        contents := contents + chunk.spelling;
      }
      assert contents == before + piece && placeHolders == next;
      assert hint == hintBefore + ChunkHint(chunk) && after == newTrigger;
      j := j + 1;
    }
  }

  // ---------------------------------------------------------------------------
  // What the completions promise

  /** A trigger once set stays set. */
  lemma {:induction false} TriggerStays(cs: seq<Chunk>, prior: Option<string>)
    ensures prior.Some? ==> Trigger(cs, prior).Some?
    ensures (exists k :: 0 <= k < |cs| && cs[k].kind == TypedText) ==> Trigger(cs, prior).Some?
  {
    if cs != [] {
      var next := if cs[0].kind == TypedText then Some(cs[0].spelling) else prior;
      TriggerStays(cs[1..], next);
      if exists k :: 0 <= k < |cs| && cs[k].kind == TypedText {
        var k :| 0 <= k < |cs| && cs[k].kind == TypedText;
        if k > 0 {
          assert cs[1..][k - 1].kind == TypedText;
        }
      }
    }
  }

  /** The trigger is the spelling of the last typed-text chunk, and the
      prior value when there is no typed text. */
  lemma {:induction false} TriggerLastTyped(cs: seq<Chunk>, prior: Option<string>, k: nat)
    requires k < |cs| && cs[k].kind == TypedText
    requires forall j :: k < j < |cs| ==> cs[j].kind != TypedText
    ensures Trigger(cs, prior) == Some(cs[k].spelling)
  {
    var next := if cs[0].kind == TypedText then Some(cs[0].spelling) else prior;
    if k == 0 {
      TriggerNoTyped(cs[1..], next);
    } else {
      TriggerLastTyped(cs[1..], next, k - 1);
    }
  }

  lemma {:induction false} TriggerNoTyped(cs: seq<Chunk>, prior: Option<string>)
    requires forall j :: 0 <= j < |cs| ==> cs[j].kind != TypedText
    ensures Trigger(cs, prior) == prior
  {
    if cs != [] {
      assert cs[0].kind != TypedText;
      TriggerNoTyped(cs[1..], prior);
    }
  }

  /** The completions fail exactly when the first result has no typed text
      and no trigger was set before; otherwise there is one completion per
      result, in order, whose contents are that result's contents and whose
      shown text ends with a tab and the result's hint. */
  lemma {:induction false} CompletionsShape(rs: seq<seq<Chunk>>, trigger: Option<string>)
    ensures Completions(rs, trigger).Err? <==> rs != [] && Trigger(rs[0], trigger).None?
    ensures var r := Completions(rs, trigger);
      r.Ok? ==>
        |r.value| == |rs| &&
        forall k :: 0 <= k < |rs| ==>
          r.value[k].contents == Contents(rs[k]) &&
          exists t :: r.value[k].shown == t + "\t" + Hint(rs[k])
  {
    if rs != [] {
      var t := Trigger(rs[0], trigger);
      if t.Some? {
        CompletionsShape(rs[1..], t);
        if rs[1..] != [] {
          TriggerStays(rs[1..][0], t);
        }
        var r := Completions(rs, trigger);
        var tail := Completions(rs[1..], t);
        assert r.value == [Completion(t.value + "\t" + Hint(rs[0]), Contents(rs[0]))] + tail.value;
        forall k | 0 <= k < |rs|
          ensures r.value[k].contents == Contents(rs[k]) && exists u :: r.value[k].shown == u + "\t" + Hint(rs[k])
        {
          if k == 0 {
            assert r.value[0].shown == t.value + "\t" + Hint(rs[0]);
          } else {
            assert r.value[k] == tail.value[k - 1] && rs[k] == rs[1..][k - 1];
          }
        }
      }
    }
  }

  /** The hint holds every chunk's spelling in order: the hint of the
      chunks before, then this chunk's part, then the hint of those after. */
  lemma {:induction false} HintAppend(a: seq<Chunk>, b: seq<Chunk>)
    ensures Hint(a + b) == Hint(a) + Hint(b)
  {
    if a != [] {
      assert (a + b)[1..] == a[1..] + b;
      HintAppend(a[1..], b);
    } else {
      assert a + b == b;
    }
  }

  lemma {:induction false} HintAt(cs: seq<Chunk>, k: nat)
    requires k < |cs|
    ensures Hint(cs) == Hint(cs[..k]) + ChunkHint(cs[k]) + Hint(cs[k + 1..])
  {
    var front := cs[..k + 1];
    assert Hint(cs) == Hint(front) + Hint(cs[k + 1..]) by {
      assert cs == front + cs[k + 1..];
      HintAppend(front, cs[k + 1..]);
    }
    assert Hint(front) == Hint(cs[..k]) + ChunkHint(cs[k]) by {
      assert front == cs[..k] + [cs[k]];
      HintAppend(cs[..k], [cs[k]]);
      assert Hint([cs[k]]) == ChunkHint(cs[k]) + Hint([]);
    }
  }

  /** The contents of two runs of chunks: the numbering of the second run
      goes on from the placeholders of the first. */
  lemma {:induction false} ContentsFromAppend(a: seq<Chunk>, b: seq<Chunk>, n: nat)
    ensures ContentsFrom(a + b, n) == ContentsFrom(a, n) + ContentsFrom(b, n + PlaceholderCount(a))
  {
    if a != [] {
      assert (a + b)[1..] == a[1..] + b;
      ContentsFromAppend(a[1..], b, if a[0].kind == Placeholder then n + 1 else n);
    } else {
      assert a + b == b;
    }
  }

  /** The placeholder after `m` earlier placeholders is number `m + 1`; the
      numbering restarts with each result. */
  lemma {:induction false} PlaceholderNumber(a: seq<Chunk>, spelling: string, b: seq<Chunk>)
    ensures Contents(a + [Chunk(Placeholder, spelling)] + b) ==
      Contents(a) + PlaceholderText(PlaceholderCount(a) + 1, spelling) + ContentsFrom(b, PlaceholderCount(a) + 2)
  {
    var p := [Chunk(Placeholder, spelling)];
    var m := PlaceholderCount(a);
    assert PlaceholderCount(a + p) == m + 1 by {
      PlaceholderCountAppend(a, p);
      assert p[1..] == [];
    }
    assert ContentsFrom(p, m + 1) == PlaceholderText(m + 1, spelling) by {
      assert p[1..] == [];
    }
    assert ContentsFrom(a + p, 1) == Contents(a) + PlaceholderText(m + 1, spelling) by {
      ContentsFromAppend(a, p, 1);
    }
    ContentsFromAppend(a + p, b, 1);
  }

  lemma {:induction false} PlaceholderCountAppend(a: seq<Chunk>, b: seq<Chunk>)
    ensures PlaceholderCount(a + b) == PlaceholderCount(a) + PlaceholderCount(b)
  {
    if a != [] {
      assert (a + b)[1..] == a[1..] + b;
      PlaceholderCountAppend(a[1..], b);
    } else {
      assert a + b == b;
    }
  }

  /** The chunks whose spelling reaches the contents. */
  function Shown(cs: seq<Chunk>): (r: seq<Chunk>)
    ensures forall k :: 0 <= k < |r| ==> !Hidden(r[k])
  {
    if cs == [] then [] else (if Hidden(cs[0]) then [] else [cs[0]]) + Shown(cs[1..])
  }

  /** Result types, optional and informative chunks add nothing to the
      contents: dropping them leaves the contents as they are. */
  lemma {:induction false} ContentsOmitHidden(cs: seq<Chunk>, n: nat)
    ensures ContentsFrom(Shown(cs), n) == ContentsFrom(cs, n)
  {
    if cs != [] {
      var m := if cs[0].kind == Placeholder then n + 1 else n;
      ContentsOmitHidden(cs[1..], m);
      if !Hidden(cs[0]) {
        assert ([cs[0]] + Shown(cs[1..]))[1..] == Shown(cs[1..]);
      } else {
        assert Shown(cs) == Shown(cs[1..]);
      }
    }
  }

  /** With every chunk a typed text or plain text, the contents are the
      spellings one after the other, which is also the hint. */
  lemma {:induction false} ContentsOfText(cs: seq<Chunk>, n: nat)
    requires forall k :: 0 <= k < |cs| ==> cs[k].kind == TypedText || cs[k].kind == Text
    ensures ContentsFrom(cs, n) == Hint(cs)
  {
    if cs != [] {
      assert cs[0].kind == TypedText || cs[0].kind == Text;
      ContentsOfText(cs[1..], n);
    }
  }

  // ---------------------------------------------------------------------------
  // The completer

  /** A translation unit as far as this model sees it: the arguments it was
      built with, its diagnostics and how often it was reparsed. */
  datatype Tu = Tu(fileName: string, args: seq<string>, diagnostics: seq<string>, reparses: nat)

  /** The flags `init_completer` compiles with: the standard flag, one
      "-I" flag per configured include, then, when the search is on and
      finds a `.clang_complete` from the file's folder up to the project
      folder, that file's flags; `lines` gives each file's lines. */
  function InitFlags(fs: FileSystem, includes: seq<string>, search: bool, std: string,
                     fileFolder: Folder, projectFolder: Option<Folder>, lines: string -> seq<string>): seq<string> {
    [std] + IncludeFlags(includes) +
    (if search then ClangCompleteFlags(fs, fileFolder, projectFolder, lines) else [])
  }

  function IncludeFlags(includes: seq<string>): (r: seq<string>)
    ensures |r| == |includes| && forall k :: 0 <= k < |r| ==> r[k] == "-I" + includes[k]
  {
    if includes == [] then [] else ["-I" + includes[0]] + IncludeFlags(includes[1..])
  }

  /** `_search_clang_complete_file` followed by `_parse_clang_complete_file`
      on its result, when there is one. */
  function ClangCompleteFlags(fs: FileSystem, start: Folder, stop: Option<Folder>, lines: string -> seq<string>): seq<string> {
    var found := ClimbFirst(FlagsFiles.HasClangComplete(fs), start, OnePast(stop));
    if found.None? then []
    else
      var file := FileIn(found.value, FlagsFiles.ClangCompleteName);
      FlagsFiles.ParsedLines(Dirname(file), lines(file), false)
  }

  /** `_search_clang_complete_file(start_folder, stop_folder)`: the loop of
      `FlagsFile.__init__`, returning the path. */
  method SearchClangCompleteFile(fs: FileSystem, start: Folder, stop: Option<Folder>) returns (file: Option<string>)
    ensures var f := ClimbFirst(FlagsFiles.HasClangComplete(fs), start, OnePast(stop));
      file == if f.Some? then Some(FileIn(f.value, FlagsFiles.ClangCompleteName)) else None
  {
    var found := FlagsFiles.FindClangComplete(fs, start, stop);
    if found.Some? {
      return Some(FileIn(found.value, FlagsFiles.ClangCompleteName));
    }
    return None;
  }

  /** `_parse_clang_complete_file(file)`: the `.clang_complete` line rules
      with includes written as `-I<path>`. */
  method ParseClangCompleteFile(file: string, lines: seq<string>) returns (flags: seq<string>)
    ensures flags == FlagsFiles.ParsedLines(Dirname(file), lines, false)
  {
    flags := FlagsFiles.ParseLines(Dirname(file), lines, false);
  }

  class LibClangCompleter {
    /** `translation_units`: the translation unit of each view id. */
    var translationUnits: map<int, Tu>
    var completions: seq<Completion>
    var asyncCompletionsReady: bool

    constructor ()
      ensures translationUnits == map[] && completions == [] && !asyncCompletionsReady
    {
      translationUnits := map[];
      completions := [];
      asyncCompletionsReady := false;
    }

    /** `get_diagnostics(view_id)`: None for a view without a unit. */
    function GetDiagnostics(viewId: int): (r: Option<seq<string>>)
      reads this
      ensures r.None? <==> viewId !in translationUnits
      ensures r.Some? ==> r.value == translationUnits[viewId].diagnostics
    {
      if viewId !in translationUnits then None else Some(translationUnits[viewId].diagnostics)
    }

    /** `remove_tu(view_id)`: only that view's unit goes; an unknown id
        changes nothing. */
    method RemoveTu(viewId: int)
      modifies this
      ensures translationUnits == old(translationUnits) - {viewId}
      ensures viewId !in old(translationUnits) ==> translationUnits == old(translationUnits)
      ensures GetDiagnostics(viewId).None?
      ensures forall v :: v != viewId ==> GetDiagnostics(v) == old(GetDiagnostics(v))
      ensures completions == old(completions) && asyncCompletionsReady == old(asyncCompletionsReady)
    {
      if viewId !in translationUnits {
        return;
      }
      translationUnits := translationUnits - {viewId};
    }

    /** `reparse(view_id)`: True exactly when the view has a unit, which is
        then reparsed. */
    method Reparse(viewId: int) returns (ok: bool)
      modifies this
      ensures ok <==> viewId in old(translationUnits)
      ensures ok ==>
        translationUnits == old(translationUnits)[viewId := old(translationUnits)[viewId].(reparses := old(translationUnits)[viewId].reparses + 1)]
      ensures !ok ==> translationUnits == old(translationUnits)
      ensures completions == old(completions) && asyncCompletionsReady == old(asyncCompletionsReady)
    {
      if viewId in translationUnits {
        var tu := translationUnits[viewId];
        translationUnits := translationUnits[viewId := tu.(reparses := tu.reparses + 1)];
        return true;
      }
      return false;
    }

    /** `init_completer(...)`: builds the flags and stores the unit that
        `compile` gives for them; None stands for a compile that raised,
        which leaves the units as they were. */
    method InitCompleter(viewId: int, includes: seq<string>, search: bool, std: string, fileName: string,
                         fileFolder: Folder, projectFolder: Option<Folder>, fs: FileSystem,
                         lines: string -> seq<string>, compile: (string, seq<string>) -> Option<Tu>)
      returns (clangFlags: seq<string>)
      modifies this
      ensures clangFlags == InitFlags(fs, includes, search, std, fileFolder, projectFolder, lines)
      ensures var tu := compile(fileName, clangFlags);
        translationUnits == if tu.Some? then old(translationUnits)[viewId := tu.value] else old(translationUnits)
      ensures completions == old(completions) && asyncCompletionsReady == old(asyncCompletionsReady)
    {
      var includeFlags := BuildIncludeFlags(includes);
      clangFlags := [std] + includeFlags;
      if search {
        var flags := SearchAndParse(fs, fileFolder, projectFolder, lines);
        clangFlags := clangFlags + flags;
      }
      var tu := compile(fileName, clangFlags);
      if tu.Some? {
        translationUnits := translationUnits[viewId := tu.value];
      }
    }

    /** `complete(view, cursor_pos)` once libclang has answered: `results` is
        the list of completion strings, or None. Nothing happens without a
        unit for the view or without results, or when building the snippets
        raises; otherwise the completions are stored and marked ready. */
    method Complete(viewId: int, results: Option<seq<seq<Chunk>>>)
      modifies this
      ensures var built := if results.Some? then Completions(results.value, None) else Err("");
        if viewId in old(translationUnits) && results.Some? && results.value != [] && built.Ok? then
          completions == built.value && asyncCompletionsReady
        else
          completions == old(completions) && asyncCompletionsReady == old(asyncCompletionsReady)
      ensures translationUnits == old(translationUnits)
    {
      if viewId !in translationUnits {
        return;
      }
      if results.None? || results.value == [] {
        return;
      }
      var built := ProcessCompletions(results.value);
      if built.Err? {
        return;
      }
      completions := built.value;
      asyncCompletionsReady := true;
    }
  }

  /** The loop `for include in initial_includes:` of `init_completer`. */
  method BuildIncludeFlags(includes: seq<string>) returns (flags: seq<string>)
    ensures flags == IncludeFlags(includes)
  {
    flags := [];
    var i := 0;
    while i < |includes|
      invariant 0 <= i <= |includes|
      invariant flags == IncludeFlags(includes[..i])
    {
      IncludeFlagsSnoc(includes, i);
      flags := flags + ["-I" + includes[i]];
      i := i + 1;
    }
    assert includes[..i] == includes;
  }

  /** The search branch of `init_completer`: the flags of the
      `.clang_complete` found, or none. */
  method SearchAndParse(fs: FileSystem, start: Folder, stop: Option<Folder>, lines: string -> seq<string>)
    returns (flags: seq<string>)
    ensures flags == ClangCompleteFlags(fs, start, stop, lines)
  {
    flags := [];
    var file := SearchClangCompleteFile(fs, start, stop);
    if file.Some? {
      // A path that ends in the file name is never empty.
      assert EndsWith(file.value, FlagsFiles.ClangCompleteName);
    }
    if file.Some? && file.value != "" {
      flags := ParseClangCompleteFile(file.value, lines(file.value));
    }
  }

  lemma {:induction false} IncludeFlagsSnoc(includes: seq<string>, i: nat)
    requires i < |includes|
    ensures IncludeFlags(includes[..i + 1]) == IncludeFlags(includes[..i]) + ["-I" + includes[i]]
  {
    var a := IncludeFlags(includes[..i + 1]);
    var b := IncludeFlags(includes[..i]) + ["-I" + includes[i]];
    assert |a| == |b|;
    forall k | 0 <= k < |a|
      ensures a[k] == b[k]
    {
      if k < i {
        assert includes[..i + 1][k] == includes[..i][k];
      }
    }
  }
}
