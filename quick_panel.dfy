/** plugin/utils/quick_panel_handler.py: the errors of a view listed in the
    quick panel, and the location opened when one is picked. */
module QuickPanel {
  import opened Wrappers
  import opened Strings
  import opened Collections

  /** An error dict as the quick panel reads it. */
  datatype PanelError = PanelError(file: string, row: int, col: int, error: string, severity: int)

  /** `[ENTRY_TEMPLATE.format(type=..., error=...), file]` */
  datatype PanelItem = PanelItem(text: string, file: string)

  /** "WARNING" below the minimal error severity, "ERROR" otherwise. */
  function ErrorType(e: PanelError, minErrorSeverity: int): string {
    if e.severity < minErrorSeverity then "WARNING" else "ERROR"
  }

  /** `"{type}: {error}"` */
  function EntryText(errorType: string, error: string): string {
    errorType + ": " + error
  }

  function Item(minErrorSeverity: int): PanelError -> PanelItem {
    e => PanelItem(EntryText(ErrorType(e, minErrorSeverity), e.error), e.file)
  }

  /** The items of `items_to_show`, one per error in the errors' order. */
  function Items(errors: seq<PanelError>, minErrorSeverity: int): seq<PanelItem> {
    MapSeq(Item(minErrorSeverity), errors)
  }

  /** `items_to_show()`; `minErrorSeverity` is `MIN_ERROR_SEVERITY`. */
  method ItemsToShow(errors: seq<PanelError>, minErrorSeverity: int) returns (contents: seq<PanelItem>)
    ensures contents == Items(errors, minErrorSeverity)
  {
    contents := [];
    var i := 0;
    while i < |errors|
      invariant i <= |errors|
      invariant contents == Items(errors[..i], minErrorSeverity)
    {
      MapSeqSnoc(Item(minErrorSeverity), errors, i);
      var errorDict := errors[i];
      var errorType := "ERROR";
      if errorDict.severity < minErrorSeverity {
        errorType := "WARNING";
      }
      contents := contents + [PanelItem(EntryText(errorType, errorDict.error), errorDict.file)];
      i := i + 1;
    }
    assert errors[..i] == errors;
  }

  /** Item `k` names the error's file and reads "WARNING: " or "ERROR: "
      followed by the error, the warning exactly when the severity is below
      the minimum. */
  lemma ItemsOfErrors(errors: seq<PanelError>, minErrorSeverity: int, k: nat)
    requires k < |errors|
    ensures |Items(errors, minErrorSeverity)| == |errors|
    ensures var item := Items(errors, minErrorSeverity)[k];
      item.file == errors[k].file &&
      (errors[k].severity < minErrorSeverity ==> item.text == "WARNING: " + errors[k].error) &&
      (errors[k].severity >= minErrorSeverity ==> item.text == "ERROR: " + errors[k].error)
  {
    MapSeqIndex(Item(minErrorSeverity), errors, k);
  }

  /** `__get_formatted_location(idx)`: `"{file}:{row}:{col}"`. */
  function FormattedLocation(e: PanelError): string {
    e.file + ":" + IntToString(e.row) + ":" + IntToString(e.col)
  }

  /** `on_done(idx)`: the location to open, or nothing for an index outside
      the list. */
  function OnDone(errors: seq<PanelError>, idx: int): (r: Option<string>)
    ensures r.None? <==> idx < 0 || idx >= |errors|
    ensures r.Some? ==> r.value == FormattedLocation(errors[idx])
  {
    if idx < 0 || idx >= |errors| then None
    else Some(FormattedLocation(errors[idx]))
  }

  /** For a file name without ':', the location splits back into the file,
      the row and the column. */
  lemma FormattedLocationParts(e: PanelError)
    requires ':' !in e.file
    ensures var parts := Split(FormattedLocation(e), ":");
      |parts| == 3 && parts[0] == e.file &&
      ParseInt(parts[1]) == Some(e.row) && ParseInt(parts[2]) == Some(e.col)
  {
    var r, c := IntToString(e.row), IntToString(e.col);
    NoColonInInt(e.row);
    NoColonInInt(e.col);
    assert FormattedLocation(e) == Join([e.file, r, c], ":") by {
      Join3(e.file, r, c, ":");
    }
    SplitJoinChar([e.file, r, c], ':');
    ParseIntToString(e.row);
    ParseIntToString(e.col);
  }
}
