/** plugin/error_vis.py: the compile errors of each view, kept per row, and
    the HTML and region lists shown for them. The per-row tables and their
    operations are shared with the popup and phantom visualisations. */
module ErrorVis {
  import opened Wrappers
  import opened Strings
  import opened PyPath
  import opened Collections

  // ---------------------------------------------------------------------------
  // The tables

  /** A region of the view, from point `a` to point `b`. */
  datatype Region = Region(a: int, b: int)

  /** A parsed error: the dict's 'file', 'row', 'col' and 'error', and the
      severity libclang adds, if any. */
  datatype ErrorDict = ErrorDict(file: string, row: int, col: int, error: string, severity: Option<int>)

  /** An error as `add_error` stores it, with the region of the word at its
      position. */
  datatype StoredError = StoredError(entry: ErrorDict, region: Region)

  /** A view's dict from row to the errors of that row; `rows` are its keys
      in insertion order. */
  datatype RowTable = RowTable(rows: seq<int>, errors: map<int, seq<StoredError>>) {
    predicate Valid() {
      (forall i, j :: 0 <= i < j < |rows| ==> rows[i] != rows[j]) &&
      (forall r :: r in errors ==> r in rows) &&
      (forall i :: 0 <= i < |rows| ==> rows[i] in errors)
    }
  }

  const NoRows: RowTable := RowTable([], map[])

  /** `d[row] += [e]` when the row has errors, else `d[row] = [e]`. */
  function AddToRow(t: RowTable, row: int, e: StoredError): (r: RowTable)
    ensures r.errors == t.errors[row := if row in t.errors then t.errors[row] + [e] else [e]]
  {
    if row in t.errors then RowTable(t.rows, t.errors[row := t.errors[row] + [e]])
    else RowTable(t.rows + [row], t.errors[row := [e]])
  }

  /** Adding keeps the table well formed; a new row goes last. */
  lemma AddToRowValid(t: RowTable, row: int, e: StoredError)
    requires t.Valid()
    ensures AddToRow(t, row, e).Valid()
    ensures AddToRow(t, row, e).rows == if row in t.errors then t.rows else t.rows + [row]
  {
  }

  /** The rows other than `row`, in order. */
  function WithoutRow(rows: seq<int>, row: int): (r: seq<int>)
    ensures forall x :: x in r <==> x in rows && x != row
  {
    if rows == [] then []
    else WithoutRow(rows[..|rows| - 1], row) + (if rows[|rows| - 1] == row then [] else [rows[|rows| - 1]])
  }

  lemma {:induction false} WithoutRowDistinct(rows: seq<int>, row: int)
    requires forall i, j :: 0 <= i < j < |rows| ==> rows[i] != rows[j]
    ensures var r := WithoutRow(rows, row); forall i, j :: 0 <= i < j < |r| ==> r[i] != r[j]
  {
    if rows != [] {
      var n := |rows| - 1;
      WithoutRowDistinct(rows[..n], row);
      assert rows[n] !in rows[..n];
      assert rows[n] !in WithoutRow(rows[..n], row);
    }
  }

  /** `del d[row]`, a no-op for a row without errors. */
  function RemoveRow(t: RowTable, row: int): (r: RowTable)
    ensures r.errors == t.errors - {row}
  {
    if row in t.errors then RowTable(WithoutRow(t.rows, row), t.errors - {row}) else t
  }

  lemma RemoveRowValid(t: RowTable, row: int)
    requires t.Valid()
    ensures RemoveRow(t, row).Valid()
  {
    WithoutRowDistinct(t.rows, row);
    var r := RemoveRow(t, row);
    if row in t.errors {
      assert r.rows == WithoutRow(t.rows, row);
    }
    forall i | 0 <= i < |r.rows|
      ensures r.rows[i] in r.errors
    {
      assert r.rows[i] in r.rows;
    }
  }

  /** `path.basename(error_dict['file']) == path.basename(view.file_name())` */
  predicate SameFile(e: ErrorDict, viewFile: string) {
    Basename(e.file) == Basename(viewFile)
  }

  /** The error with its region: `wordAt(r, c)` stands for
      `view.word(view.text_point(r, c))`. */
  function Located(e: ErrorDict, wordAt: (int, int) -> Region): StoredError {
    StoredError(e, wordAt(e.row - 1, e.col - 1))
  }

  /** The table after `add_error`: an error of another file is ignored. */
  function AddedError(t: RowTable, viewFile: string, e: ErrorDict, wordAt: (int, int) -> Region): RowTable {
    if SameFile(e, viewFile) then AddToRow(t, e.row, Located(e, wordAt)) else t
  }

  /** The table after adding `errors` one after the other. */
  function Collected(t: RowTable, viewFile: string, errors: seq<ErrorDict>, wordAt: (int, int) -> Region): RowTable {
    if errors == [] then t
    else AddedError(Collected(t, viewFile, errors[..|errors| - 1], wordAt), viewFile, errors[|errors| - 1], wordAt)
  }

  lemma CollectedSnoc(t: RowTable, viewFile: string, errors: seq<ErrorDict>, i: nat, wordAt: (int, int) -> Region)
    requires i < |errors|
    ensures Collected(t, viewFile, errors[..i + 1], wordAt) == AddedError(Collected(t, viewFile, errors[..i], wordAt), viewFile, errors[i], wordAt)
  {
    assert errors[..i + 1][..i] == errors[..i];
  }

  /** The errors of `errors` that belong to the view's file and to `row`,
      located, in their order. */
  function RowErrors(viewFile: string, errors: seq<ErrorDict>, wordAt: (int, int) -> Region, row: int): seq<StoredError> {
    if errors == [] then []
    else
      var e := errors[|errors| - 1];
      RowErrors(viewFile, errors[..|errors| - 1], wordAt, row) +
      NewOnRow(viewFile, e, wordAt, row)
  }

  /** The errors a single `add_error` puts on `row`. */
  function NewOnRow(viewFile: string, e: ErrorDict, wordAt: (int, int) -> Region, row: int): seq<StoredError> {
    if SameFile(e, viewFile) && e.row == row then [Located(e, wordAt)] else []
  }

  lemma AddedErrorRow(c: RowTable, viewFile: string, e: ErrorDict, wordAt: (int, int) -> Region, row: int)
    requires c.Valid()
    ensures var d := AddedError(c, viewFile, e, wordAt);
      var extra := NewOnRow(viewFile, e, wordAt, row);
      d.Valid() && (row in d.errors <==> row in c.errors || extra != []) &&
      (row in d.errors ==> d.errors[row] == (if row in c.errors then c.errors[row] else []) + extra)
  {
    if SameFile(e, viewFile) {
      AddToRowValid(c, e.row, Located(e, wordAt));
    }
  }

  /** Adding errors keeps the table well formed; row `row` then holds its
      earlier errors followed by the new errors of the view's file on that
      row, in arrival order; it is present exactly when it was before or
      some new error of the file is on it. */
  lemma {:induction false} CollectedRow(t: RowTable, viewFile: string, errors: seq<ErrorDict>, wordAt: (int, int) -> Region, row: int)
    requires t.Valid()
    ensures var c := Collected(t, viewFile, errors, wordAt);
      c.Valid() &&
      (row in c.errors <==> row in t.errors || RowErrors(viewFile, errors, wordAt, row) != []) &&
      (row in c.errors ==>
         c.errors[row] == (if row in t.errors then t.errors[row] else []) + RowErrors(viewFile, errors, wordAt, row))
  {
    if errors != [] {
      var n := |errors| - 1;
      var front := errors[..n];
      var e := errors[n];
      CollectedRow(t, viewFile, front, wordAt, row);
      var c := Collected(t, viewFile, front, wordAt);
      CollectedRowStep(t, viewFile, errors, wordAt, row);
      AddedErrorRow(c, viewFile, e, wordAt, row);
      var before := if row in t.errors then t.errors[row] else [];
      AppendAssoc(before, RowErrors(viewFile, front, wordAt, row), NewOnRow(viewFile, e, wordAt, row));
    }
  }

  /** Both `Collected` and `RowErrors` take the last error after the others. */
  lemma CollectedRowStep(t: RowTable, viewFile: string, errors: seq<ErrorDict>, wordAt: (int, int) -> Region, row: int)
    requires errors != []
    ensures var n := |errors| - 1;
      Collected(t, viewFile, errors, wordAt) == AddedError(Collected(t, viewFile, errors[..n], wordAt), viewFile, errors[n], wordAt) &&
      RowErrors(viewFile, errors, wordAt, row) == RowErrors(viewFile, errors[..n], wordAt, row) + NewOnRow(viewFile, errors[n], wordAt, row)
  {
  }

  /** A view that has no errors yet gets exactly the errors of its file,
      row by row in arrival order. */
  lemma {:induction false} GeneratedRows(viewFile: string, errors: seq<ErrorDict>, wordAt: (int, int) -> Region, row: int)
    ensures var c := Collected(NoRows, viewFile, errors, wordAt);
      c.Valid() && (row in c.errors <==> RowErrors(viewFile, errors, wordAt, row) != []) &&
      (row in c.errors ==> c.errors[row] == RowErrors(viewFile, errors, wordAt, row))
  {
    CollectedRow(NoRows, viewFile, errors, wordAt, row);
  }

  /** An error of another file never reaches any row. */
  lemma {:induction false} RowErrorsSameFile(viewFile: string, errors: seq<ErrorDict>, wordAt: (int, int) -> Region, row: int, k: nat)
    requires k < |RowErrors(viewFile, errors, wordAt, row)|
    ensures var s := RowErrors(viewFile, errors, wordAt, row)[k];
      SameFile(s.entry, viewFile) && s.entry.row == row && s.entry in errors
  {
    var n := |errors| - 1;
    var front := RowErrors(viewFile, errors[..n], wordAt, row);
    if k < |front| {
      RowErrorsSameFile(viewFile, errors[..n], wordAt, row, k);
    }
  }

  // ---------------------------------------------------------------------------
  // Regions

  function ErrorRegion(s: StoredError): Region {
    s.region
  }

  function RowRegions(t: RowTable): int -> seq<Region> {
    row => if row in t.errors then MapSeq(ErrorRegion, t.errors[row]) else []
  }

  /** The regions of a table, row by row in insertion order. */
  function Regions(t: RowTable): seq<Region> {
    ConcatMap(RowRegions(t), t.rows)
  }

  /** The number of errors in the first `n` rows. */
  function ErrorCount(t: RowTable, n: nat): nat
    requires n <= |t.rows|
  {
    if n == 0 then 0
    else ErrorCount(t, n - 1) + (if t.rows[n - 1] in t.errors then |t.errors[t.rows[n - 1]]| else 0)
  }

  lemma {:induction false} RegionsCountUpTo(t: RowTable, n: nat)
    requires n <= |t.rows|
    ensures |ConcatMap(RowRegions(t), t.rows[..n])| == ErrorCount(t, n)
  {
    if n > 0 {
      RegionsCountUpTo(t, n - 1);
      ConcatMapSnoc(RowRegions(t), t.rows, n - 1);
      var row := t.rows[n - 1];
      assert RowRegions(t)(row) == if row in t.errors then MapSeq(ErrorRegion, t.errors[row]) else [];
      assert |RowRegions(t)(row)| == if row in t.errors then |t.errors[row]| else 0;
    }
  }

  /** There are as many regions as stored errors, and every region is that
      of some stored error. */
  lemma {:induction false} RegionsOfErrors(t: RowTable, x: Region)
    requires t.Valid()
    ensures |Regions(t)| == ErrorCount(t, |t.rows|)
    ensures x in Regions(t) <==> exists row, k :: row in t.errors && 0 <= k < |t.errors[row]| && t.errors[row][k].region == x
  {
    RegionsCountUpTo(t, |t.rows|);
    assert t.rows[..|t.rows|] == t.rows;
    if x in Regions(t) {
      RegionOfSomeError(t, x);
    }
    if exists row, k :: row in t.errors && 0 <= k < |t.errors[row]| && t.errors[row][k].region == x {
      var row, k :| row in t.errors && 0 <= k < |t.errors[row]| && t.errors[row][k].region == x;
      ErrorRegionListed(t, row, k);
    }
  }

  lemma {:induction false} RegionOfSomeError(t: RowTable, x: Region)
    requires t.Valid() && x in Regions(t)
    ensures exists row, k :: row in t.errors && 0 <= k < |t.errors[row]| && t.errors[row][k].region == x
  {
    var f := RowRegions(t);
    ConcatMapMember(f, t.rows, x);
    var i :| 0 <= i < |t.rows| && x in f(t.rows[i]);
    var row := t.rows[i];
    var j :| 0 <= j < |f(row)| && f(row)[j] == x;
    MapSeqIndex(ErrorRegion, t.errors[row], j);
  }

  lemma {:induction false} ErrorRegionListed(t: RowTable, row: int, k: nat)
    requires t.Valid() && row in t.errors && k < |t.errors[row]|
    ensures t.errors[row][k].region in Regions(t)
  {
    var f := RowRegions(t);
    var x := t.errors[row][k].region;
    MapSeqIndex(ErrorRegion, t.errors[row], k);
    var i :| 0 <= i < |t.rows| && t.rows[i] == row;
    assert x in f(t.rows[i]);
    ConcatMapMember(f, t.rows, x);
  }

  /** `_as_region_list(err_regions_dict)`: the regions of every row's list. */
  method AsRegionList(t: RowTable) returns (regionList: seq<Region>)
    requires t.Valid()
    ensures regionList == Regions(t)
  {
    var f := RowRegions(t);
    regionList := [];
    var i := 0;
    while i < |t.rows|
      invariant i <= |t.rows|
      invariant regionList == ConcatMap(f, t.rows[..i])
    {
      var errorsList := t.errors[t.rows[i]];
      var j := 0;
      ghost var before := regionList;
      while j < |errorsList|
        invariant j <= |errorsList|
        invariant regionList == before + MapSeq(ErrorRegion, errorsList[..j])
      {
        MapSeqSnoc(ErrorRegion, errorsList, j);
        regionList := regionList + [errorsList[j].region];
        j := j + 1;
      }
      assert errorsList[..j] == errorsList;
      ConcatMapSnoc(f, t.rows, i);
      i := i + 1;
    }
    assert t.rows[..i] == t.rows;
  }

  // ---------------------------------------------------------------------------
  // HTML

  /** ' ' to "&nbsp;", then '<' to "&lt;", then '>' to "&gt;". */
  function EscapeError(error: string): string {
    Replace(Replace(Replace(error, " ", "&nbsp;"), "<", "&lt;"), ">", "&gt;")
  }

  /** No space, '<' or '>' is left, and every character other than those and
      the ones the entities bring ('&', 'n', 'b', 's', 'p', ';', 'l', 'g',
      't') occurs in the escaped text exactly when it occurs in the error. */
  lemma EscapeErrorChars(error: string, d: char)
    requires d !in {' ', '<', '>', '&', 'n', 'b', 's', 'p', ';', 'l', 'g', 't'}
    ensures ' ' !in EscapeError(error) && '<' !in EscapeError(error) && '>' !in EscapeError(error)
    ensures d in EscapeError(error) <==> d in error
  {
    var a := Replace(error, " ", "&nbsp;");
    var b := Replace(a, "<", "&lt;");
    ReplaceRemovesChar(error, ' ', "&nbsp;");
    ReplaceRemovesChar(a, '<', "&lt;");
    ReplaceRemovesChar(b, '>', "&gt;");
    ReplaceKeepsOtherChars(a, "<", "&lt;", ' ');
    ReplaceKeepsOtherChars(b, ">", "&gt;", ' ');
    ReplaceKeepsOtherChars(b, ">", "&gt;", '<');
    assert d !in "&nbsp;" && d !in "&lt;" && d !in "&gt;";
    ReplaceKeepsOtherChars(error, " ", "&nbsp;", d);
    ReplaceKeepsOtherChars(a, "<", "&lt;", d);
    ReplaceKeepsOtherChars(b, ">", "&gt;", d);
  }

  function ParagraphHtml(s: StoredError): string {
    "<p><tt>" + EscapeError(s.entry.error) + "</tt></p>"
  }

  /** The HTML of a row: one paragraph per error, in order. */
  function ErrorsHtml(entries: seq<StoredError>): string {
    ConcatMap(ParagraphHtml, entries)
  }

  /** `CompileErrors._as_html(errors_dict)` */
  method AsHtml(entries: seq<StoredError>) returns (errorsHtml: string)
    ensures errorsHtml == ErrorsHtml(entries)
  {
    errorsHtml := "";
    var i := 0;
    while i < |entries|
      invariant i <= |entries|
      invariant errorsHtml == ErrorsHtml(entries[..i])
    {
      ConcatMapSnoc(ParagraphHtml, entries, i);
      var processedError := entries[i].entry.error;
      processedError := Replace(processedError, " ", "&nbsp;");
      processedError := Replace(processedError, "<", "&lt;");
      processedError := Replace(processedError, ">", "&gt;");
      errorsHtml := errorsHtml + "<p><tt>" + processedError + "</tt></p>";
      i := i + 1;
    }
    assert entries[..i] == entries;
  }


  /** The markup before the errors, around the stylesheet of the phantom. */
  function PhantomHead(stylesheet: string): string {
    "<body id=inline-error>" + stylesheet + "<div class=\"error\">" + "<span class=\"message\">"
  }

  const PhantomTail: string := "</span>" + "<a href=hide>" + "×" + "</a></div>" + "</body>"

  function EscapedError(s: StoredError): string {
    EscapeError(s.entry.error)
  }

  /** `CompileErrors._as_phantom_html(errors_dict)`: the escaped errors
      separated by "<br>" inside the phantom's markup. */
  function PhantomHtml(stylesheet: string, entries: seq<StoredError>): string {
    PhantomHead(stylesheet) + Join(MapSeq(EscapedError, entries), "<br>") + PhantomTail
  }

  /** `_as_phantom_html(errors_dict)`: the markup around the errors. */
  method AsPhantomHtml(stylesheet: string, entries: seq<StoredError>) returns (errorsHtml: string)
    ensures errorsHtml == PhantomHtml(stylesheet, entries)
  {
    errorsHtml := "<body id=inline-error>";
    errorsHtml := errorsHtml + stylesheet;
    errorsHtml := errorsHtml + "<div class=\"error\">";
    errorsHtml := errorsHtml + "<span class=\"message\">";
    assert errorsHtml == PhantomHead(stylesheet);
    var body := PhantomErrors(entries);
    errorsHtml := errorsHtml + body;
    errorsHtml := errorsHtml + "</span>";
    errorsHtml := errorsHtml + "<a href=hide>" + "×" + "</a></div>";
    errorsHtml := errorsHtml + "</body>";
  }

  /** The loop of `_as_phantom_html` with its `first` flag: every error
      after the first is preceded by "<br>". */
  method PhantomErrors(entries: seq<StoredError>) returns (body: string)
    ensures body == Join(MapSeq(EscapedError, entries), "<br>")
  {
    body := "";
    var first := true;
    var i := 0;
    while i < |entries|
      invariant i <= |entries|
      invariant first <==> i == 0
      invariant body == Join(MapSeq(EscapedError, entries[..i]), "<br>")
    {
      MapSeqSnoc(EscapedError, entries, i);
      var processedError := EscapeError(entries[i].entry.error);
      if !first {
        processedError := "<br>" + processedError;
        JoinSnoc(MapSeq(EscapedError, entries[..i]), EscapedError(entries[i]), "<br>");
      } else {
        assert entries[..i + 1] == [entries[i]];
      }
      first := false;
      body := body + processedError;
      i := i + 1;
    }
    assert entries[..i] == entries;
  }

  function PhantomHtmlWith(stylesheet: string): seq<StoredError> -> string {
    entries => PhantomHtml(stylesheet, entries)
  }

  /** A phantom below line `line` (0-based) of the view, with its HTML. */
  datatype Phantom = Phantom(line: int, html: string)

  function RowPhantom(t: RowTable, html: seq<StoredError> -> string): int -> Phantom {
    row => Phantom(row - 1, if row in t.errors then html(t.errors[row]) else "")
  }

  /** The phantoms of `show_phantoms`: one per row with errors, in the rows'
      order, each below its row and showing that row's errors. */
  function Phantoms(t: RowTable, html: seq<StoredError> -> string): (r: seq<Phantom>)
    requires t.Valid()
    ensures |r| == |t.rows|
    ensures forall k :: 0 <= k < |r| ==> r[k] == Phantom(t.rows[k] - 1, html(t.errors[t.rows[k]]))
  {
    var f := RowPhantom(t, html);
    MapSeqAll(f, t.rows);
    MapSeq(f, t.rows)
  }

  lemma MapSeqAll<A, B>(f: A -> B, xs: seq<A>)
    ensures forall k :: 0 <= k < |xs| ==> MapSeq(f, xs)[k] == f(xs[k])
  {
    forall k | 0 <= k < |xs| {
      MapSeqIndex(f, xs, k);
    }
  }

  /** The loop of `show_phantoms` over a view's rows. */
  method BuildPhantoms(t: RowTable, html: seq<StoredError> -> string) returns (phantoms: seq<Phantom>)
    requires t.Valid()
    ensures phantoms == Phantoms(t, html)
  {
    phantoms := [];
    var i := 0;
    while i < |t.rows|
      invariant i <= |t.rows|
      invariant |phantoms| == i
      invariant forall k :: 0 <= k < i ==> phantoms[k] == Phantom(t.rows[k] - 1, html(t.errors[t.rows[k]]))
    {
      var err := t.rows[i];
      phantoms := phantoms + [Phantom(err - 1, html(t.errors[err]))];
      i := i + 1;
    }
  }

  // ---------------------------------------------------------------------------
  // CompileErrors

  /** Every view's table is well formed. */
  predicate TablesValid(tables: map<int, RowTable>) {
    forall v :: v in tables ==> tables[v].Valid()
  }

  /** Storing a well-formed table keeps every table well formed. */
  lemma StoreTableValid(tables: map<int, RowTable>, viewId: int, t: RowTable)
    requires TablesValid(tables) && t.Valid()
    ensures TablesValid(tables[viewId := t])
  {
  }

  class CompileErrors {
    /** `err_regions`: view id to that view's row table. */
    var errRegions: map<int, RowTable>
    /** The stylesheet `_as_phantom_html` puts in every phantom. */
    const stylesheet: string

    constructor (stylesheet: string)
      ensures errRegions == map[] && this.stylesheet == stylesheet
      ensures Valid()
    {
      errRegions := map[];
      this.stylesheet := stylesheet;
    }

    /** Every view's table is well formed. */
    predicate Valid()
      reads this
    {
      TablesValid(errRegions)
    }

    /** `add_error(view, error_dict)` for the view `viewId` showing
        `viewFile`; the view's table must exist when the error is of its
        file. */
    method AddError(viewId: int, viewFile: string, e: ErrorDict, wordAt: (int, int) -> Region)
      requires SameFile(e, viewFile) ==> viewId in errRegions
      modifies this
      ensures !SameFile(e, viewFile) ==> errRegions == old(errRegions)
      ensures viewId in old(errRegions) ==>
        errRegions == old(errRegions)[viewId := AddedError(old(errRegions)[viewId], viewFile, e, wordAt)]
      ensures old(Valid()) ==> Valid()
    {
      if Basename(e.file) == Basename(viewFile) {
        var row := e.row;
        var col := e.col;
        var region := wordAt(row - 1, col - 1);
        var added := AddToRow(errRegions[viewId], row, StoredError(e, region));
        if Valid() {
          AddToRowValid(errRegions[viewId], row, StoredError(e, region));
          StoreTableValid(errRegions, viewId, added);
        }
        errRegions := errRegions[viewId := added];
      }
    }

    /** One turn of the loop of `generate`: `add_error` for the next error. */
    method AddNextError(viewId: int, viewFile: string, errors: seq<ErrorDict>, i: nat, wordAt: (int, int) -> Region,
                        ghost others: map<int, RowTable>)
      requires i < |errors|
      requires errRegions == others[viewId := Collected(NoRows, viewFile, errors[..i], wordAt)]
      modifies this
      ensures errRegions == others[viewId := Collected(NoRows, viewFile, errors[..i + 1], wordAt)]
    {
      ghost var prev := Collected(NoRows, viewFile, errors[..i], wordAt);
      ghost var next := AddedError(prev, viewFile, errors[i], wordAt);
      CollectedSnoc(NoRows, viewFile, errors, i, wordAt);
      MapStoreTwice(others, viewId, prev, next);
      AddError(viewId, viewFile, errors[i], wordAt);
    }

    /** `generate(view, errors)`: nothing for buffer 0; otherwise the view's
        table is replaced by one holding only the new errors of its file. */
    method Generate(viewId: int, viewFile: string, errors: seq<ErrorDict>, wordAt: (int, int) -> Region)
      modifies this
      ensures viewId == 0 ==> errRegions == old(errRegions)
      ensures viewId != 0 ==> errRegions == old(errRegions)[viewId := Collected(NoRows, viewFile, errors, wordAt)]
      ensures old(Valid()) ==> Valid()
    {
      if viewId == 0 {
        return;
      }
      ghost var others := errRegions;
      if viewId in errRegions {
        errRegions := errRegions - {viewId};
        MapRemoveStore(others, viewId, NoRows);
      }
      errRegions := errRegions[viewId := NoRows];
      assert errors[..0] == [];
      var i := 0;
      while i < |errors|
        invariant i <= |errors|
        invariant viewId in errRegions
        invariant errRegions == others[viewId := Collected(NoRows, viewFile, errors[..i], wordAt)]
      {
        AddNextError(viewId, viewFile, errors, i, wordAt, others);
        i := i + 1;
      }
      assert errors[..i] == errors;
      if old(Valid()) {
        GeneratedRows(viewFile, errors, wordAt, 0);
        StoreTableValid(old(errRegions), viewId, Collected(NoRows, viewFile, errors, wordAt));
      }
    }

    /** `show_regions(view, show_phantoms)`: nothing for a view without a
        table; otherwise its regions and, when asked, its phantoms. */
    method ShowRegions(viewId: int, showPhantoms: bool) returns (regions: Option<seq<Region>>, phantoms: seq<Phantom>)
      requires Valid()
      ensures viewId !in errRegions ==> regions.None? && phantoms == []
      ensures viewId in errRegions ==>
        regions == Some(Regions(errRegions[viewId])) &&
        phantoms == (if showPhantoms then Phantoms(errRegions[viewId], PhantomHtmlWith(stylesheet)) else [])
    {
      phantoms := [];
      if viewId !in errRegions {
        return None, [];
      }
      var list := AsRegionList(errRegions[viewId]);
      regions := Some(list);
      if showPhantoms {
        phantoms := BuildPhantoms(errRegions[viewId], PhantomHtmlWith(stylesheet));
      }
    }

    /** `show_popup_if_needed(view, row)`: the HTML of the row's errors, if
        the view has a table and the row has errors. */
    function PopupIfNeeded(viewId: int, row: int): (r: Option<string>)
      reads this
      ensures r.Some? <==> viewId in errRegions && row in errRegions[viewId].errors
    {
      if viewId in errRegions && row in errRegions[viewId].errors then
        Some(ErrorsHtml(errRegions[viewId].errors[row]))
      else None
    }

    /** `clear(view)`: the view's table is emptied but kept. */
    method Clear(viewId: int)
      modifies this
      ensures viewId in old(errRegions) ==> errRegions == old(errRegions)[viewId := NoRows]
      ensures viewId !in old(errRegions) ==> errRegions == old(errRegions)
      ensures old(Valid()) ==> Valid()
    {
      if viewId !in errRegions {
        return;
      }
      if Valid() {
        StoreTableValid(errRegions, viewId, NoRows);
      }
      errRegions := errRegions[viewId := NoRows];
    }

    /** `remove_region(view_id, row)`: only that row of that view goes. */
    method RemoveRegion(viewId: int, row: int)
      modifies this
      ensures viewId in old(errRegions) ==> errRegions == old(errRegions)[viewId := RemoveRow(old(errRegions)[viewId], row)]
      ensures viewId !in old(errRegions) ==> errRegions == old(errRegions)
      ensures old(Valid()) ==> Valid()
    {
      if viewId !in errRegions {
        return;
      }
      var current := errRegions[viewId];
      if row !in current.errors {
        return;
      }
      if Valid() {
        RemoveRowValid(current, row);
        StoreTableValid(errRegions, viewId, RemoveRow(current, row));
      }
      errRegions := errRegions[viewId := RemoveRow(current, row)];
    }
  }

  /** After `clear` a view has no popup for any row; after `remove_region`
      the row has none and every other row keeps its errors. */
  lemma ClearedTables(t: RowTable, row: int, other: int)
    requires other != row
    ensures NoRows.Valid() && row !in NoRows.errors
    ensures row !in RemoveRow(t, row).errors
    ensures other in t.errors ==> other in RemoveRow(t, row).errors && RemoveRow(t, row).errors[other] == t.errors[other]
  {
  }
}
