/** EasyClangComplete.py: the event listener of the plugin: which files it
    completes, whether the text before the cursor asks for completion, and
    the answer to a completion query while completions are computed in the
    background. */
module EasyClangCompletePlugin {
  import opened Wrappers
  import opened Strings
  import opened PyPath
  import opened Tools
  import LibClang
  import ClangAutoCompletePlugin

  /** `EasyClangComplete.valid_extensions` */
  const ValidExtensions: seq<string> := [".c", ".cc", ".cpp", ".cxx", ".h", ".hpp", ".hxx"]

  /** `has_valid_extension(view)` for the view's file name, None without
      one: a valid name ends in one of the listed extensions, so a name
      without a dot is never valid. */
  function HasValidExtension(fileName: Option<string>): (r: bool)
    ensures r ==> fileName.Some? && exists k :: 0 <= k < |ValidExtensions| && EndsWith(fileName.value, ValidExtensions[k])
    ensures fileName.Some? && '.' !in fileName.value ==> !r
  {
    if fileName.None? || fileName.value == "" then false
    else
      ClangAutoCompletePlugin.ExtensionSuffix(fileName.value);
      SplitExt(fileName.value).1 in ValidExtensions
  }

  /** The plugin accepts every file the older single-file plugin accepts,
      and one more kind: exactly the ".cc" files. */
  lemma ExtensionsAgainstOlderPlugin(fileName: Option<string>)
    ensures ClangAutoCompletePlugin.HasValidExtension(fileName) ==> HasValidExtension(fileName)
    ensures HasValidExtension(fileName) && !ClangAutoCompletePlugin.HasValidExtension(fileName) <==>
      fileName.Some? && fileName.value != "" && SplitExt(fileName.value).1 == ".cc"
  {
  }

  // Whether completion is needed

  /** How far back the cursor's trigger reaches: 2 for the last character of
      "->" or "::", 1 otherwise. */
  function TriggerLength(current: string): nat {
    if current == ">" || current == ":" then 2 else 1
  }

  /** What `needs_autocompletion(point, view)` answers; `triggers` are the
      configured triggers and `completeAll` the `autocomplete_all` setting. */
  predicate Needed(point: int, view: View, triggers: seq<string>, completeAll: bool) {
    completeAll ||
    (var current := CharAt(view, point - 1);
     (current == ">" ==> CharAt(view, point - 2) == "-") &&
     (current == ":" ==> CharAt(view, point - 2) == ":") &&
     !IsDigits(view.word(point - TriggerLength(current))) &&
     exists k :: 0 <= k < |triggers| && Contains(triggers[k], current))
  }

  /** `needs_autocompletion(point, view)`: the checks in their order, then
      the loop over the triggers that answers at the first one holding the
      character before the cursor. */
  method NeedsAutocompletion(point: int, view: View, triggers: seq<string>, completeAll: bool) returns (needed: bool)
    ensures needed == Needed(point, view, triggers, completeAll)
  {
    if completeAll {
      return true;
    }
    var triggerLength := 1;
    var currentChar := CharAt(view, point - triggerLength);
    if currentChar == ">" {
      triggerLength := 2;
      if CharAt(view, point - triggerLength) != "-" {
        return false;
      }
    }
    if currentChar == ":" {
      triggerLength := 2;
      if CharAt(view, point - triggerLength) != ":" {
        return false;
      }
    }
    var wordOnTheLeft := view.word(point - triggerLength);
    if IsDigits(wordOnTheLeft) {
      return false;
    }
    var k := 0;
    while k < |triggers|
      invariant k <= |triggers|
      invariant forall j :: 0 <= j < k ==> !Contains(triggers[j], currentChar)
    {
      if Contains(triggers[k], currentChar) {
        return true;
      }
      k := k + 1;
    }
    return false;
  }

  /** The character of `CharAt` inside the text. */
  lemma CharAtInside(view: View, point: int)
    requires CharAt(view, point) != "\0"
    ensures 0 <= point < |view.text| && CharAt(view, point) == [view.text[point]]
  {
  }

  /** Completion after a '>' needs "->" right before the cursor, and after a
      ':' needs "::". */
  lemma NeededAfterArrowOrScope(point: int, view: View, triggers: seq<string>)
    requires Needed(point, view, triggers, false)
    ensures CharAt(view, point - 1) == ">" ==> 2 <= point <= |view.text| && view.text[point - 2..point] == "->"
    ensures CharAt(view, point - 1) == ":" ==> 2 <= point <= |view.text| && view.text[point - 2..point] == "::"
  {
    var current := CharAt(view, point - 1);
    if current == ">" || current == ":" {
      CharAtInside(view, point - 1);
      CharAtInside(view, point - 2);
      assert view.text[point - 2..point] == [view.text[point - 2], view.text[point - 1]];
    }
  }

  /** After a '.' trigger: completion exactly when the word left of the
      cursor is no number, as in "3." against "foo.". */
  lemma NeededAfterDot(point: int, view: View, triggers: seq<string>)
    requires CharAt(view, point - 1) == "." && "." in triggers
    ensures Needed(point, view, triggers, false) <==> !IsDigits(view.word(point - 1))
  {
    var k :| 0 <= k < |triggers| && triggers[k] == ".";
    assert OccursAt(triggers[k], ".", 0);
  }

  // The completion query

  /** A completion query: whether the view is a scratch view, its file
      name, the cursor locations and the view. */
  datatype Query = Query(isScratch: bool, fileName: Option<string>, locations: seq<int>, view: View)

  /** `on_query_completions(view, prefix, locations)` with the libclang
      completer. Completions that a background run made ready are answered
      once and the flag is cleared; otherwise an empty list is answered (the
      answers that are lists go with `INHIBIT_WORD_COMPLETIONS`) and,
      when completion is needed at the first location, `startsCompletion`
      says that a completion thread is started. */
  method OnQueryCompletions(completer: LibClang.LibClangCompleter, q: Query, triggers: seq<string>, completeAll: bool)
    returns (r: Result<Option<seq<LibClang.Completion>>>, startsCompletion: bool)
    modifies completer`asyncCompletionsReady
    ensures q.isScratch || !HasValidExtension(q.fileName) ==>
      r == Ok(None) && !startsCompletion && completer.asyncCompletionsReady == old(completer.asyncCompletionsReady)
    ensures !q.isScratch && HasValidExtension(q.fileName) && old(completer.asyncCompletionsReady) ==>
      r == Ok(Some(completer.completions)) && !completer.asyncCompletionsReady && !startsCompletion
    ensures !q.isScratch && HasValidExtension(q.fileName) && !old(completer.asyncCompletionsReady) ==>
      !completer.asyncCompletionsReady &&
      (q.locations == [] ==> r.Err? && !startsCompletion) &&
      (q.locations != [] ==> r == Ok(Some([])) && startsCompletion == Needed(q.locations[0], q.view, triggers, completeAll))
  {
    startsCompletion := false;
    if q.isScratch {
      return Ok(None), false;
    }
    if !HasValidExtension(q.fileName) {
      return Ok(None), false;
    }
    if completer.asyncCompletionsReady {
      completer.asyncCompletionsReady := false;
      return Ok(Some(completer.completions)), false;
    }
    if q.locations == [] {
      return Err("IndexError: list index out of range"), false;
    }
    var needed := NeedsAutocompletion(q.locations[0], q.view, triggers, completeAll);
    if !needed {
      return Ok(Some([])), false;
    }
    return Ok(Some([])), true;
  }

  /** Two queries in a row after a background run: the first answers the
      ready completions, the second no longer does. */
  method QueryTwice(completer: LibClang.LibClangCompleter, q: Query, triggers: seq<string>, completeAll: bool)
    returns (first: Result<Option<seq<LibClang.Completion>>>, second: Result<Option<seq<LibClang.Completion>>>)
    requires !q.isScratch && HasValidExtension(q.fileName) && completer.asyncCompletionsReady && q.locations != []
    modifies completer`asyncCompletionsReady
    ensures first == Ok(Some(completer.completions)) && second == Ok(Some([]))
  {
    var started: bool;
    first, started := OnQueryCompletions(completer, q, triggers, completeAll);
    second, started := OnQueryCompletions(completer, q, triggers, completeAll);
  }
}
