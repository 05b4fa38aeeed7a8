/** plugin/error_vis/popup_error_vis.py: compile errors kept per view and row
    in an instance dict, shown as highlighted regions and, for the row under
    the cursor, as a popup built from the error or the warning template. */
module PopupErrorVis {
  import opened Wrappers
  import opened Strings
  import opened Collections
  import opened HtmlEscape
  import opened PyPath
  import opened ErrorVis

  // ---------------------------------------------------------------------------
  // The popup's HTML

  /** A `string.Template` with a single `$content` placeholder: the text
      before it and the text after it. */
  datatype Template = Template(before: string, after: string)

  /** `template.substitute(content=content)` */
  function Substitute(t: Template, content: string): string {
    t.before + content + t.after
  }

  /** An entry whose libclang severity is above 2 (an error, not a warning). */
  predicate Severe(s: StoredError) {
    s.entry.severity.Some? && s.entry.severity.value > 2
  }

  /** Some entry of the list is severe. */
  predicate AnySevere(entries: seq<StoredError>) {
    if entries == [] then false
    else AnySevere(entries[..|entries| - 1]) || Severe(entries[|entries| - 1])
  }

  lemma {:induction false} AnySevereExists(entries: seq<StoredError>)
    ensures AnySevere(entries) <==> exists k :: 0 <= k < |entries| && Severe(entries[k])
  {
    if entries != [] {
      var n := |entries| - 1;
      AnySevereExists(entries[..n]);
      if exists k :: 0 <= k < |entries| && Severe(entries[k]) {
        var k :| 0 <= k < |entries| && Severe(entries[k]);
        if k < n {
          assert entries[..n][k] == entries[k];
        }
      }
      if AnySevere(entries[..n]) {
        var k :| 0 <= k < n && Severe(entries[..n][k]);
        assert entries[k] == entries[..n][k];
      }
    }
  }

  function EscapedEntry(s: StoredError): string {
    EscapeEntry(s.entry.error)
  }

  function ErrorText(s: StoredError): string {
    s.entry.error
  }

  /** One entry of the popup. */
  function DivHtml(s: StoredError): string {
    "<div>" + EscapedEntry(s) + "</div>"
  }

  /** The template `_as_html` ends with: the error template once some entry
      is severe, the warning template otherwise. */
  function MaskFor(errorTemplate: Template, warningTemplate: Template, entries: seq<StoredError>): Template {
    if AnySevere(entries) then errorTemplate else warningTemplate
  }

  /** `PopupErrorVis._as_html(errors_dict)` */
  function PopupHtml(errorTemplate: Template, warningTemplate: Template, entries: seq<StoredError>): string {
    Substitute(MaskFor(errorTemplate, warningTemplate, entries), ConcatMap(DivHtml, entries))
  }

  /** The loop of `_as_html`, switching to the error template at the first
      severe entry. */
  method AsHtml(errorTemplate: Template, warningTemplate: Template, entries: seq<StoredError>) returns (html: string)
    ensures html == PopupHtml(errorTemplate, warningTemplate, entries)
  {
    var errorsHtmlMask := warningTemplate;
    var errorsHtml := "";
    var i := 0;
    while i < |entries|
      invariant i <= |entries|
      invariant errorsHtmlMask == MaskFor(errorTemplate, warningTemplate, entries[..i])
      invariant errorsHtml == ConcatMap(DivHtml, entries[..i])
    {
      ConcatMapSnoc(DivHtml, entries, i);
      assert entries[..i + 1][..i] == entries[..i];
      var entry := entries[i];
      var processedError := EscapeEntry(entry.entry.error);
      if entry.entry.severity.Some? {
        var severity := entry.entry.severity.value;
        if severity > 2 {
          errorsHtmlMask := errorTemplate;
        }
      }
      errorsHtml := errorsHtml + DivHtml(entry);
      i := i + 1;
    }
    assert entries[..i] == entries;
    html := errorsHtmlMask.before + errorsHtml + errorsHtmlMask.after;
  }

  /** The error template is used exactly when some entry has a severity
      above 2. */
  lemma TemplateChoice(errorTemplate: Template, warningTemplate: Template, entries: seq<StoredError>)
    ensures PopupHtml(errorTemplate, warningTemplate, entries) ==
      Substitute(if exists k :: 0 <= k < |entries| && Severe(entries[k]) then errorTemplate else warningTemplate,
                 ConcatMap(DivHtml, entries))
  {
    AnySevereExists(entries);
  }

  /** Wrapping every item in the same open and close markup is joining the
      items with close-then-open between the outer open and close. */
  lemma {:induction false} WrapJoin(f: StoredError -> string, g: StoredError -> string, open: string, close: string, xs: seq<StoredError>)
    requires xs != []
    requires forall x :: f(x) == open + g(x) + close
    ensures ConcatMap(f, xs) == open + Join(MapSeq(g, xs), close + open) + close
    decreases |xs|
  {
    var n := |xs| - 1;
    if n == 0 {
      ConcatMapSingle(f, xs[0]);
      assert xs == [xs[0]];
      MapSeqAppendOne(g, [], xs[0]);
    } else {
      var front := xs[..n];
      WrapJoin(f, g, open, close, front);
      MapSeqSnoc(g, xs, n);
      assert xs[..n + 1] == xs;
      JoinSnoc(MapSeq(g, front), g(xs[n]), close + open);
      var j := Join(MapSeq(g, front), close + open);
      assert ConcatMap(f, xs) == open + j + close + (open + g(xs[n]) + close);
      assert open + j + close + (open + g(xs[n]) + close) == open + (j + (close + open) + g(xs[n])) + close;
    }
  }

  lemma DivHtmlShape()
    ensures forall x :: DivHtml(x) == "<div>" + EscapedEntry(x) + "</div>"
  {
  }

  /** The popup's content reads back as the errors: between the outer
      "<div>" and "</div>", the pieces between "</div><div>" unescape to the
      error texts, in order. */
  lemma PopupContentEntries(entries: seq<StoredError>)
    requires entries != []
    ensures var content := ConcatMap(DivHtml, entries);
      var inner := Join(MapSeq(EscapedEntry, entries), "</div><div>");
      content == "<div>" + inner + "</div>" &&
      MapSeq(Unescape, Split(inner, "</div><div>")) == MapSeq(ErrorText, entries)
  {
    DivHtmlShape();
    WrapJoin(DivHtml, EscapedEntry, "<div>", "</div>", entries);
    assert "</div>" + "<div>" == "</div><div>";
    EscapedEntriesRead(entries, "</div><div>");
  }

  /** Escaped entries joined by a separator that starts with '<' split back
      into the escaped entries, which unescape to the errors. */
  lemma EscapedEntriesRead(entries: seq<StoredError>, sep: string)
    requires entries != [] && sep != [] && sep[0] == '<'
    ensures MapSeq(Unescape, Split(Join(MapSeq(EscapedEntry, entries), sep), sep)) == MapSeq(ErrorText, entries)
  {
    var escaped := MapSeq(EscapedEntry, entries);
    forall k | 0 <= k < |escaped|
      ensures sep[0] !in escaped[k]
    {
      MapSeqIndex(EscapedEntry, entries, k);
      EscapeEntryRoundTrip(entries[k].entry.error);
    }
    SplitJoinSep(escaped, sep);
    forall k | 0 <= k < |entries|
      ensures MapSeq(Unescape, escaped)[k] == MapSeq(ErrorText, entries)[k]
    {
      MapSeqIndex(Unescape, escaped, k);
      MapSeqIndex(EscapedEntry, entries, k);
      MapSeqIndex(ErrorText, entries, k);
      EscapeEntryRoundTrip(entries[k].entry.error);
    }
  }

  // ---------------------------------------------------------------------------
  // PopupErrorVis

  class PopupErrorVis {
    /** `err_regions`: view id to that view's row table. */
    var errRegions: map<int, RowTable>

    constructor ()
      ensures errRegions == map[]
      ensures Valid()
    {
      errRegions := map[];
    }

    /** Every view's table is well formed. */
    predicate Valid()
      reads this
    {
      TablesValid(errRegions)
    }

    /** `add_error(view, error_dict)`; the view's table must exist when the
        error is of its file. */
    method AddError(viewId: int, viewFile: string, e: ErrorDict, wordAt: (int, int) -> Region)
      requires SameFile(e, viewFile) ==> viewId in errRegions
      modifies this
      ensures !SameFile(e, viewFile) ==> errRegions == old(errRegions)
      ensures viewId in old(errRegions) ==>
        errRegions == old(errRegions)[viewId := AddedError(old(errRegions)[viewId], viewFile, e, wordAt)]
      ensures old(Valid()) ==> Valid()
    {
      var errorSourceFile := Basename(e.file);
      if errorSourceFile == Basename(viewFile) {
        var row := e.row;
        var col := e.col;
        var region := wordAt(row - 1, col - 1);
        var added := AddToRow(errRegions[viewId], row, StoredError(e, region));
        if Valid() {
          AddToRowValid(errRegions[viewId], row, StoredError(e, region));
          StoreTableValid(errRegions, viewId, added);
        }
        errRegions := errRegions[viewId := added];
      }
    }

    /** One turn of the loop of `generate`: `add_error` for the next error. */
    method AddNextError(viewId: int, viewFile: string, errors: seq<ErrorDict>, i: nat, wordAt: (int, int) -> Region,
                        ghost others: map<int, RowTable>)
      requires i < |errors|
      requires errRegions == others[viewId := Collected(NoRows, viewFile, errors[..i], wordAt)]
      modifies this
      ensures errRegions == others[viewId := Collected(NoRows, viewFile, errors[..i + 1], wordAt)]
    {
      ghost var prev := Collected(NoRows, viewFile, errors[..i], wordAt);
      ghost var next := AddedError(prev, viewFile, errors[i], wordAt);
      CollectedSnoc(NoRows, viewFile, errors, i, wordAt);
      MapStoreTwice(others, viewId, prev, next);
      AddError(viewId, viewFile, errors[i], wordAt);
    }

    /** `generate(view, errors)`: nothing for buffer 0; otherwise the view's
        table holds exactly the errors of its file. */
    method Generate(viewId: int, viewFile: string, errors: seq<ErrorDict>, wordAt: (int, int) -> Region)
      modifies this
      ensures viewId == 0 ==> errRegions == old(errRegions)
      ensures viewId != 0 ==> errRegions == old(errRegions)[viewId := Collected(NoRows, viewFile, errors, wordAt)]
      ensures old(Valid()) ==> Valid()
    {
      if viewId == 0 {
        return;
      }
      ghost var others := errRegions;
      if viewId in errRegions {
        errRegions := errRegions - {viewId};
        MapRemoveStore(others, viewId, NoRows);
      }
      errRegions := errRegions[viewId := NoRows];
      assert errors[..0] == [];
      var i := 0;
      while i < |errors|
        invariant i <= |errors|
        invariant viewId in errRegions
        invariant errRegions == others[viewId := Collected(NoRows, viewFile, errors[..i], wordAt)]
      {
        AddNextError(viewId, viewFile, errors, i, wordAt, others);
        i := i + 1;
      }
      assert errors[..i] == errors;
      if old(Valid()) {
        GeneratedRows(viewFile, errors, wordAt, 0);
        StoreTableValid(old(errRegions), viewId, Collected(NoRows, viewFile, errors, wordAt));
      }
    }

    /** `show_errors(view)`: the regions to highlight, or nothing for a view
        without a table. */
    method ShowErrors(viewId: int) returns (regions: Option<seq<Region>>)
      requires Valid()
      ensures viewId !in errRegions ==> regions.None?
      ensures viewId in errRegions ==> regions == Some(Regions(errRegions[viewId]))
    {
      if viewId !in errRegions {
        return None;
      }
      var currentErrorDict := errRegions[viewId];
      var list := AsRegionList(currentErrorDict);
      regions := Some(list);
    }

    /** `show_popup_if_needed(view, row)`: the popup of the row's errors, if
        the view has a table and the row has errors. */
    function PopupIfNeeded(errorTemplate: Template, warningTemplate: Template, viewId: int, row: int): (r: Option<string>)
      reads this
      ensures r.Some? <==> viewId in errRegions && row in errRegions[viewId].errors
      ensures r.Some? ==> r.value == PopupHtml(errorTemplate, warningTemplate, errRegions[viewId].errors[row])
    {
      if viewId !in errRegions then None
      else if row in errRegions[viewId].errors then
        Some(PopupHtml(errorTemplate, warningTemplate, errRegions[viewId].errors[row]))
      else None
    }

    /** `clear(view)`: the view's table is deleted; an unknown view is left
        alone. */
    method Clear(viewId: int)
      modifies this
      ensures errRegions == old(errRegions) - {viewId}
      ensures old(Valid()) ==> Valid()
    {
      if viewId !in errRegions {
        return;
      }
      errRegions := errRegions - {viewId};
    }
  }

  /** A cleared view has no table, so neither regions nor popups; every other
      view keeps its table. */
  lemma ClearedView(regions: map<int, RowTable>, viewId: int, other: int)
    requires other != viewId
    ensures viewId !in regions - {viewId}
    ensures other in regions ==> other in regions - {viewId} && (regions - {viewId})[other] == regions[other]
  {
  }
}
