/** plugin/error_vis/phantom_error_vis.py: the popup visualisation with
    phantoms below the rows instead of popups. The inherited state and
    operations are those of a `PopupErrorVis` the phantom visualisation
    holds; the phantom sets are its own. */
module PhantomErrorVis {
  import opened Wrappers
  import opened Strings
  import opened Collections
  import opened HtmlEscape
  import EV = ErrorVis
  import P = PopupErrorVis

  /** The content of a phantom: the escaped entries, each after the first
      preceded by "<br>". */
  function PhantomContent(entries: seq<EV.StoredError>): string {
    Join(MapSeq(P.EscapedEntry, entries), "<br>")
  }

  /** `PhantomErrorVis._as_html(errors_dict)` */
  function PhantomHtml(template: P.Template, entries: seq<EV.StoredError>): string {
    P.Substitute(template, PhantomContent(entries))
  }

  /** The loop of `_as_html` with its `first_error_processed` flag. */
  method AsHtml(template: P.Template, entries: seq<EV.StoredError>) returns (html: string)
    ensures html == PhantomHtml(template, entries)
  {
    var errorsHtml := "";
    var firstErrorProcessed := false;
    var i := 0;
    while i < |entries|
      invariant i <= |entries|
      invariant firstErrorProcessed <==> i > 0
      invariant errorsHtml == PhantomContent(entries[..i])
    {
      MapSeqSnoc(P.EscapedEntry, entries, i);
      var processedError := EscapeEntry(entries[i].entry.error);
      if firstErrorProcessed {
        JoinSnoc(MapSeq(P.EscapedEntry, entries[..i]), P.EscapedEntry(entries[i]), "<br>");
        processedError := "<br>" + processedError;
      } else {
        assert entries[..i + 1] == [entries[i]];
      }
      errorsHtml := errorsHtml + processedError;
      firstErrorProcessed := true;
      i := i + 1;
    }
    assert entries[..i] == entries;
    html := template.before + errorsHtml + template.after;
  }

  /** No entries give an empty content; otherwise the pieces between the
      "<br>"s unescape to the error texts, in order. */
  lemma PhantomContentEntries(entries: seq<EV.StoredError>)
    ensures entries == [] ==> PhantomContent(entries) == ""
    ensures entries != [] ==>
      MapSeq(Unescape, Split(PhantomContent(entries), "<br>")) == MapSeq(P.ErrorText, entries)
  {
    if entries != [] {
      P.EscapedEntriesRead(entries, "<br>");
    }
  }

  function PhantomHtmlWith(template: P.Template): seq<EV.StoredError> -> string {
    entries => PhantomHtml(template, entries)
  }

  class PhantomErrorVis {
    /** The state and operations inherited from `PopupErrorVis`. */
    const base: P.PopupErrorVis
    /** `phantom_sets`: view id to the phantoms last shown in it. */
    var phantomSets: map<int, seq<EV.Phantom>>

    constructor ()
      ensures fresh(base) && base.errRegions == map[] && phantomSets == map[]
    {
      base := new P.PopupErrorVis();
      phantomSets := map[];
    }

    /** `show_phantoms(view)`: the view's phantom set (made empty the first
        time) then gets one phantom per row with errors, in row order; a view
        without a table raises `KeyError` (`None`) after its set is made. */
    method ShowPhantoms(template: P.Template, viewId: int) returns (phantoms: Option<seq<EV.Phantom>>)
      requires base.Valid()
      modifies this
      ensures viewId !in base.errRegions ==>
        phantoms.None? &&
        phantomSets == old(if viewId in phantomSets then phantomSets else phantomSets[viewId := []])
      ensures viewId in base.errRegions ==>
        phantoms == Some(EV.Phantoms(base.errRegions[viewId], PhantomHtmlWith(template))) &&
        phantomSets == old(phantomSets)[viewId := phantoms.value]
    {
      if viewId !in phantomSets {
        phantomSets := phantomSets[viewId := []];
      }
      if viewId !in base.errRegions {
        return None;
      }
      var currentErrorDict := base.errRegions[viewId];
      var list := EV.BuildPhantoms(currentErrorDict, PhantomHtmlWith(template));
      phantomSets := phantomSets[viewId := list];
      phantoms := Some(list);
    }

    /** `show_errors(view)`: the parent's regions, then the phantoms. */
    method ShowErrors(template: P.Template, viewId: int) returns (regions: Option<seq<EV.Region>>, phantoms: Option<seq<EV.Phantom>>)
      requires base.Valid()
      modifies this
      ensures viewId !in base.errRegions ==> regions.None? && phantoms.None?
      ensures viewId in base.errRegions ==>
        regions == Some(EV.Regions(base.errRegions[viewId])) &&
        phantoms == Some(EV.Phantoms(base.errRegions[viewId], PhantomHtmlWith(template))) &&
        phantomSets == old(phantomSets)[viewId := phantoms.value]
    {
      regions := base.ShowErrors(viewId);
      phantoms := ShowPhantoms(template, viewId);
    }

    /** `show_popup_if_needed(view, row)`: phantoms replace popups, so no
        popup is ever shown. */
    method ShowPopupIfNeeded(viewId: int, row: int) returns (popup: Option<string>)
      ensures popup.None?
    {
      popup := None;
    }

    /** `clear(view)`: exactly the parent's `clear`; the phantom sets are
        left as they are. */
    method Clear(viewId: int)
      modifies base
      ensures base.errRegions == old(base.errRegions) - {viewId}
    {
      base.Clear(viewId);
    }
  }
}
