/** plugin/popups/popups.py: the text of the info, warning and error popups:
    doxygen comment cleanup, markdown links to source locations, the
    markdown wrapping of a popup and the source text an extent covers. */
module Popups {
  import opened Wrappers
  import opened Strings

  // ---------------------------------------------------------------------------
  // cleanup_comment

  /** `'/' + '*' + string.whitespace` */
  const CommentChars: set<char> := {'/', '*', ' ', '\t', '\n', '\r', '\U{0B}', '\U{0C}'}

  /** `line.lstrip(chars_to_strip)` */
  function StripCommentLine(line: string): (r: string)
    ensures r != [] ==> r[0] !in CommentChars
  {
    LStrip(line, CommentChars)
  }

  /** The comprehension `[line.lstrip(chars_to_strip) for line in lines]`. */
  function StripCommentLines(lines: seq<string>): (r: seq<string>)
    ensures |r| == |lines|
    ensures forall k :: 0 <= k < |r| ==> r[k] == StripCommentLine(lines[k])
  {
    seq(|lines|, k requires 0 <= k < |lines| => StripCommentLine(lines[k]))
  }

  /** The index of the first non-empty line from `i`, or `|lines|`. */
  function FirstNonEmpty(lines: seq<string>, i: nat): (r: nat)
    requires i <= |lines|
    ensures i <= r <= |lines|
    ensures forall k :: i <= k < r ==> lines[k] == ""
    ensures r < |lines| ==> lines[r] != ""
    decreases |lines| - i
  {
    if i == |lines| || lines[i] != "" then i else FirstNonEmpty(lines, i + 1)
  }

  /** The index of the first empty line from `i`, or `|lines|`. */
  function FirstEmpty(lines: seq<string>, i: nat): (r: nat)
    requires i <= |lines|
    ensures i <= r <= |lines|
    ensures forall k :: i <= k < r ==> lines[k] != ""
    ensures r < |lines| ==> lines[r] == ""
    decreases |lines| - i
  {
    if i == |lines| || lines[i] == "" then i else FirstEmpty(lines, i + 1)
  }

  /** The lines after the brief: everything after the first empty line, and
      nothing when there is no empty line. */
  function AfterBrief(lines: seq<string>): seq<string> {
    var e := FirstEmpty(lines, 0);
    if e < |lines| then lines[e + 1..] else []
  }

  /** What `cleanup_comment` keeps of the stripped lines: the lines after
      the brief, once the leading empty lines are dropped. */
  function CleanStripped(lines: seq<string>): seq<string> {
    AfterBrief(lines[FirstNonEmpty(lines, 0)..])
  }

  /** `Popup.cleanup_comment(raw_comment)` */
  function CleanupComment(raw: string): string {
    Join(CleanStripped(StripCommentLines(Split(raw, "\n"))), "\n")
  }

  /** No kept line starts with '/', '*' or whitespace. */
  lemma {:induction false} CleanStrippedLines(lines: seq<string>)
    requires forall k :: 0 <= k < |lines| ==> lines[k] == "" || lines[k][0] !in CommentChars
    ensures var r := CleanStripped(lines);
      forall k :: 0 <= k < |r| ==> r[k] == "" || r[k][0] !in CommentChars
  {
    var b := FirstNonEmpty(lines, 0);
    var rest := lines[b..];
    var e := FirstEmpty(rest, 0);
    if e < |rest| {
      assert forall k :: 0 <= k < |rest| - e - 1 ==> CleanStripped(lines)[k] == lines[b + e + 1 + k];
    }
  }

  /** After leading empty lines, a brief of non-empty lines and an empty
      line, exactly the lines after that empty line are kept. */
  lemma {:induction false} CleanStrippedAfterBrief(lines: seq<string>, b: nat, e: nat)
    requires b < e < |lines|
    requires forall k :: 0 <= k < b ==> lines[k] == ""
    requires forall k :: b <= k < e ==> lines[k] != ""
    requires lines[e] == ""
    ensures CleanStripped(lines) == lines[e + 1..]
  {
    assert lines[b] != "";
    assert FirstNonEmpty(lines, 0) == b;
    var rest := lines[b..];
    assert rest[e - b] == "";
    assert forall k :: 0 <= k < e - b ==> rest[k] == lines[b + k];
    assert FirstEmpty(rest, 0) == e - b;
    assert rest[e - b + 1..] == lines[e + 1..];
  }

  /** When no empty line follows a non-empty one, nothing is kept. */
  lemma {:induction false} CleanStrippedNoBlank(lines: seq<string>)
    requires forall x, y :: 0 <= x < y < |lines| && lines[x] != "" ==> lines[y] != ""
    ensures CleanStripped(lines) == []
  {
    var b := FirstNonEmpty(lines, 0);
    var rest := lines[b..];
    assert forall k :: 0 <= k < |rest| ==> rest[k] == lines[b + k];
  }

  /** Every stripped line starts with no '/', '*' or whitespace. */
  lemma {:induction false} StripCommentLinesStart(lines: seq<string>)
    ensures var r := StripCommentLines(lines);
      forall k :: 0 <= k < |r| ==> r[k] == "" || r[k][0] !in CommentChars
  {
  }

  /** No line of a cleaned comment starts with '/', '*' or whitespace. */
  lemma {:induction false} CleanupCommentLines(raw: string)
    ensures var r := CleanStripped(StripCommentLines(Split(raw, "\n")));
      CleanupComment(raw) == Join(r, "\n") && forall k :: 0 <= k < |r| ==> r[k] == "" || r[k][0] !in CommentChars
  {
    var lines := StripCommentLines(Split(raw, "\n"));
    StripCommentLinesStart(Split(raw, "\n"));
    CleanStrippedLines(lines);
  }

  /** The nested `pop_prepending_empty_lines(lines)`. */
  method PopPrependingEmptyLines(lines: seq<string>) returns (rest: seq<string>)
    ensures rest == lines[FirstNonEmpty(lines, 0)..]
  {
    var firstNonEmptyLineIdx := 0;
    while firstNonEmptyLineIdx < |lines| && lines[firstNonEmptyLineIdx] == ""
      invariant firstNonEmptyLineIdx <= |lines|
      invariant FirstNonEmpty(lines, firstNonEmptyLineIdx) == FirstNonEmpty(lines, 0)
    {
      firstNonEmptyLineIdx := firstNonEmptyLineIdx + 1;
    }
    rest := lines[firstNonEmptyLineIdx..];
  }

  /** The loop of `cleanup_comment` that skips the brief. */
  method SkipBrief(lines: seq<string>) returns (cleanLines: seq<string>)
    ensures cleanLines == AfterBrief(lines)
  {
    var e := FirstEmpty(lines, 0);
    cleanLines := [];
    var isBriefComment := true;
    var i := 0;
    while i < |lines|
      invariant i <= |lines|
      invariant isBriefComment <==> i <= e
      invariant isBriefComment ==> cleanLines == []
      invariant !isBriefComment ==> e < i && cleanLines == lines[e + 1..i]
    {
      var line := lines[i];
      if line == "" && isBriefComment {
        isBriefComment := false;
      } else if !isBriefComment {
        cleanLines := cleanLines + [line];
      }
      i := i + 1;
    }
  }

  /** `Popup.cleanup_comment(raw_comment)` step by step. */
  method CleanupCommentSteps(raw: string) returns (comment: string)
    ensures comment == CleanupComment(raw)
  {
    var lines := Split(raw, "\n");
    var stripped := StripCommentLines(lines);
    lines := PopPrependingEmptyLines(stripped);
    var cleanLines := SkipBrief(lines);
    comment := Join(cleanLines, "\n");
  }

  // ---------------------------------------------------------------------------
  // link_from_location

  /** A clang source location: the name of its file, if it has one, and its
      1-based line and column. */
  datatype Location = Location(fileName: Option<string>, line: nat, column: nat)

  /** `location and location.file and location.file.name` */
  predicate HasFile(location: Option<Location>) {
    location.Some? && location.value.fileName.Some? && location.value.fileName.value != ""
  }

  /** `Popup.link_from_location(location, text, trailing_space)` */
  function LinkFromLocation(location: Option<Location>, text: string, trailingSpace: bool): (r: string)
    ensures !HasFile(location) ==> r == text + (if trailingSpace then " " else "")
    ensures |r| > 0 && trailingSpace ==> r[|r| - 1] == ' '
  {
    var result :=
      if HasFile(location) then
        "[" + text + "]" + "(" + location.value.fileName.value + ":" + NatToString(location.value.line) +
        ":" + NatToString(location.value.column) + ")"
      else text;
    if trailingSpace then result + " " else result
  }

  /** A link to a file whose name and text hold no ':' reads back: its
      colon-separated fields are the text and file name, the line, and the
      column followed by the closing parenthesis. */
  lemma {:induction false} LinkPosition(location: Option<Location>, text: string, trailingSpace: bool)
    requires HasFile(location) && ':' !in text && ':' !in location.value.fileName.value
    ensures var parts := Split(LinkFromLocation(location, text, trailingSpace), ":");
      |parts| == 3 &&
      var sp := if trailingSpace then " " else "";
      parts == ["[" + text + "](" + location.value.fileName.value, NatToString(location.value.line),
                NatToString(location.value.column) + ")" + sp] &&
      ParseInt(parts[1]) == Some(location.value.line)
  {
    var name := location.value.fileName.value;
    var head := "[" + text + "](" + name;
    var l := NatToString(location.value.line);
    var tail := NatToString(location.value.column) + ")" + (if trailingSpace then " " else "");
    LinkJoin(text, name, location.value.line, location.value.column, trailingSpace);
    assert ':' !in head && ':' !in l && ':' !in tail;
    SplitJoinChar([head, l, tail], ':');
    ParseDigits(l);
    NatToStringValue(location.value.line);
  }

  lemma LinkJoin(text: string, name: string, line: nat, column: nat, trailingSpace: bool)
    requires name != ""
    ensures LinkFromLocation(Some(Location(Some(name), line, column)), text, trailingSpace) ==
      Join(["[" + text + "](" + name, NatToString(line),
                 NatToString(column) + ")" + (if trailingSpace then " " else "")], ":")
  {
    var head := "[" + text + "]" + "(" + name;
    assert head == "[" + text + "](" + name;
    var l := NatToString(line);
    var c := NatToString(column);
    var sp := if trailingSpace then " " else "";
    var front := head + ":" + l + ":";
    assert LinkFromLocation(Some(Location(Some(name), line, column)), text, trailingSpace) == front + c + ")" + sp;
    assert front + c + ")" + sp == front + (c + ")" + sp);
    Join3(head, l, c + ")" + sp, ":");
  }


  // ---------------------------------------------------------------------------
  // Popup text

  /** A popup: its admonition type and its markdown text. */
  datatype Popup = Popup(popupType: string, text: string)

  /** `Popup.error(text)` */
  function ErrorPopup(text: string): (p: Popup)
    ensures p.text == text && p.popupType == "panel-error \"ECC: Error\""
  {
    Popup("panel-error \"ECC: Error\"", text)
  }

  /** `Popup.warning(text)` */
  function WarningPopup(text: string): (p: Popup)
    ensures p.text == text && p.popupType == "panel-warning \"ECC: Warning\""
  {
    Popup("panel-warning \"ECC: Warning\"", text)
  }

  /** `"\n    ".join(text.split('\n'))`, before stripping. */
  function Tabbed(text: string): string {
    Join(Split(text, "\n"), "\n    ")
  }

  /** `MD_TEMPLATE.format(type=..., contents=...)` */
  function MdTemplate(popupType: string, contents: string): string {
    "!!! " + popupType + "\n    " + contents + "\n"
  }

  /** `Popup.as_markdown()` */
  function AsMarkdown(p: Popup): string {
    MdTemplate(p.popupType, StripWs(Tabbed(p.text)))
  }

  /** Every line but the first, indented by four spaces. */
  function IndentRest(lines: seq<string>): (r: seq<string>)
    ensures |r| == |lines|
    ensures forall k :: 0 <= k < |r| ==> r[k] == "    " + lines[k]
  {
    if lines == [] then [] else ["    " + lines[0]] + IndentRest(lines[1..])
  }

  lemma {:induction false} JoinIndented(first: string, lines: seq<string>)
    ensures Join([first] + lines, "\n    ") == Join([first] + IndentRest(lines), "\n")
    decreases |lines|
  {
    if lines != [] {
      var next := "    " + lines[0];
      JoinIndented(next, lines[1..]);
      JoinCons(first, lines, "\n    ");
      JoinCons(first, IndentRest(lines), "\n");
      if |lines| == 1 {
        assert lines[1..] == [] && IndentRest(lines[1..]) == [];
      } else {
        JoinCons(lines[0], lines[1..], "\n    ");
        JoinCons(next, IndentRest(lines[1..]), "\n");
        assert [lines[0]] + lines[1..] == lines;
      }
      assert [next] + IndentRest(lines[1..]) == IndentRest(lines);
    }
  }

  lemma NoNewline(s: string)
    requires !Contains(s, "\n")
    ensures '\n' !in s && '\n' !in "    " + s
  {
    if '\n' in s {
      var i :| 0 <= i < |s| && s[i] == '\n';
      assert s[i..i + 1] == "\n";
      assert OccursAt(s, "\n", i);
    }
  }

  /** The tabbed text has the lines of the popup text, every one after the
      first indented by four spaces. */
  lemma {:induction false} TabbedLines(text: string)
    ensures var lines := Split(text, "\n");
      Split(Tabbed(text), "\n") == [lines[0]] + IndentRest(lines[1..])
  {
    var lines := Split(text, "\n");
    assert [lines[0]] + lines[1..] == lines;
    JoinIndented(lines[0], lines[1..]);
    var parts := [lines[0]] + IndentRest(lines[1..]);
    forall k | 0 <= k < |parts|
      ensures '\n' !in parts[k]
    {
      NoNewline(lines[k]);
    }
    SplitJoinChar(parts, '\n');
  }

  /** The markdown of a popup is its type line followed by its stripped
      tabbed text: only one line long when the text has a single line. */
  lemma {:induction false} AsMarkdownSingleLine(p: Popup)
    requires '\n' !in p.text
    ensures AsMarkdown(p) == MdTemplate(p.popupType, StripWs(p.text))
  {
    SplitNoChar(p.text, '\n');
  }

  // ---------------------------------------------------------------------------
  // get_text_by_extent

  /** A source range: the file and 1-based line of its start and its end. */
  datatype Extent = Extent(startFile: string, startLine: int, endFile: string, endLine: int)

  /** `"".join(parts)` */
  function Concat(parts: seq<string>): string {
    if parts == [] then "" else parts[0] + Concat(parts[1..])
  }

  lemma {:induction false} ConcatAppend(a: seq<string>, b: seq<string>)
    ensures Concat(a + b) == Concat(a) + Concat(b)
    decreases |a|
  {
    if a != [] {
      ConcatAppend(a[1..], b);
      assert (a + b)[1..] == a[1..] + b;
    } else {
      assert a + b == b;
    }
  }

  /** `Popup.get_text_by_extent(extent)`, where `lines` is what `readlines`
      gives for the start file: None across two files, else lines
      `start_line - 1 : end_line` of the file, joined. */
  function TextByExtent(extent: Extent, lines: seq<string>): (r: Option<string>)
    ensures r.None? <==> extent.startFile != extent.endFile
    ensures 1 <= extent.startLine <= extent.endLine + 1 && extent.endLine <= |lines| && r.Some? ==>
      r.value == Concat(lines[extent.startLine - 1..extent.endLine])
  {
    if extent.startFile != extent.endFile then None
    else Some(Concat(Slice(lines, extent.startLine - 1, extent.endLine)))
  }

  /** The text of lines `a..b` followed by that of lines `b+1..c` is the text
      of lines `a..c`. */
  lemma {:induction false} TextByExtentAdjacent(file: string, lines: seq<string>, a: int, b: int, c: int)
    requires 1 <= a <= b + 1 <= c + 1 && c <= |lines|
    ensures TextByExtent(Extent(file, a, file, b), lines).value + TextByExtent(Extent(file, b + 1, file, c), lines).value ==
      TextByExtent(Extent(file, a, file, c), lines).value
  {
    assert lines[a - 1..c] == lines[a - 1..b] + lines[b..c];
    ConcatAppend(lines[a - 1..b], lines[b..c]);
  }
}
