/** ClangAutoComplete.py: the single-file plugin the project grew from. It
    has its own settings, finds the include folders of the project, asks
    whether a selector sits before the cursor, computes the cursor's row and
    column for clang and builds the completions from clang's results. */
module ClangAutoCompletePlugin {
  import opened Wrappers
  import opened Strings
  import opened Collections
  import opened PyPath
  import opened SettingsStore
  import PluginSettings
  import LibClang
  import ClangBinComplete

  /** The name under which `tmp_file_path` defaults into the temp folder. */
  const TmpFileName: string := "auto_complete_tmp"

  const ValidExtensions: seq<string> := [".c", ".cpp", ".cxx", ".h", ".hpp", ".hxx"]

  /** What `is_valid` raises at its last check, which names a global that
      the module never defines. */
  const UndefinedStdFlag: string := "NameError: name 'std_flag' is not defined"

  const NotAString: string := "TypeError: expected string or bytes-like object"
  const NotAList: string := "TypeError: include_dirs is not a list"

  /** `cindex_dict`: the bindings module of each clang version that has
      bindings. */
  const CindexDict: map<string, string> := map[
    "3.2" := "ClangAutoComplete.clang.cindex32",
    "3.3" := "ClangAutoComplete.clang.cindex33",
    "3.4" := "ClangAutoComplete.clang.cindex34",
    "3.5" := "ClangAutoComplete.clang.cindex35",
    "3.6" := "ClangAutoComplete.clang.cindex36",
    "3.7" := "ClangAutoComplete.clang.cindex37",
    "3.8" := "ClangAutoComplete.clang.cindex38"]

  /** `load_correct_clang_version(clang_binary)` up to the import: nothing
      for a false setting, else the leftmost `\d.\d` of the name; a name
      without one makes `found.group()` raise. */
  function ClangVersion(clangBinary: Value): (r: Result<Option<string>>)
    ensures !Truthy(clangBinary) ==> r == Ok(None)
    ensures Truthy(clangBinary) && clangBinary.Str? ==>
      (r.Ok? <==> ClangBinComplete.FindVersion(clangBinary.s).Ok?) &&
      (r.Ok? ==> r.value == Some(ClangBinComplete.FindVersion(clangBinary.s).value))
  {
    if !Truthy(clangBinary) then Ok(None)
    else if !clangBinary.Str? then Err(NotAString)
    else
      match ClangBinComplete.FindVersion(clangBinary.s)
      case Err(e) => Err(e)
      case Ok(v) => Ok(Some(v))
  }

  /** The bindings module after the version lookup found `version`:
      `module0`, the one before, when there is none for that version. */
  function ModuleFor(version: Option<string>, module0: Option<string>): Option<string> {
    if version.Some? && version.value in CindexDict then Some(CindexDict[version.value]) else module0
  }

  /** A value left unset becomes the given default. */
  function Defaulted(v: Value, default: string): (r: Value)
    ensures r != Null
    ensures v != Null ==> r == v
  {
    if v == Null then Str(default) else v
  }

  class Settings {
    /** `subl_settings is not None` */
    var hasSublSettings: bool
    var verbose: Value
    var completeAll: Value
    var includeParentFolder: Value
    var tmpFilePath: Value
    var defaultEncoding: Value
    var selectors: Value
    var includeDirs: Value
    var clangBinary: Value
    var stdFlag: Value
    /** The bindings module `load_correct_clang_version` imported, if any. */
    var translationUnitModule: Option<string>
    /** The error loading raised, if any. */
    var raised: Option<string>

    /** `Settings()`: the class-level values are None, then the settings
        are loaded from `settings`; `tempDir` is `tempfile.gettempdir()`. */
    constructor (settings: map<string, Value>, tempDir: string)
      ensures Read(settings) && Finished(settings, tempDir, None)
    {
      translationUnitModule := None;
      new;
      LoadSettings(settings, tempDir);
    }

    /** The settings `load_settings` copies from `get`. */
    ghost predicate Read(settings: map<string, Value>)
      reads this`hasSublSettings, this`verbose, this`completeAll, this`includeParentFolder,
        this`defaultEncoding, this`selectors, this`includeDirs, this`clangBinary
    {
      ReadButDirs(settings) && includeDirs == PluginSettings.Get(settings, "include_dirs")
    }

    /** The copied settings other than `include_dirs`, which
        `populate_include_dirs` changes afterwards. */
    ghost predicate ReadButDirs(settings: map<string, Value>)
      reads this`hasSublSettings, this`verbose, this`completeAll, this`includeParentFolder,
        this`defaultEncoding, this`selectors, this`clangBinary
    {
      hasSublSettings && verbose == PluginSettings.Get(settings, "verbose") &&
      completeAll == PluginSettings.Get(settings, "autocomplete_all") &&
      includeParentFolder == PluginSettings.Get(settings, "include_parent_folder") &&
      defaultEncoding == PluginSettings.Get(settings, "default_encoding") &&
      selectors == PluginSettings.Get(settings, "selectors") &&
      clangBinary == PluginSettings.Get(settings, "clang_binary")
    }

    /** What follows the copying: the version lookup, which may raise and
        then leaves the two defaults unapplied, and otherwise the default
        temp file and standard flag. `module0` is the bindings module before
        the load. */
    ghost predicate Finished(settings: map<string, Value>, tempDir: string, module0: Option<string>)
      reads this`raised, this`translationUnitModule, this`tmpFilePath, this`stdFlag
    {
      var v := ClangVersion(PluginSettings.Get(settings, "clang_binary"));
      var tmp := PluginSettings.Get(settings, "tmp_file_path");
      var std := PluginSettings.Get(settings, "std_flag");
      (v.Err? ==>
         raised == Some(v.message) && translationUnitModule == module0 &&
         tmpFilePath == tmp && stdFlag == std) &&
      (v.Ok? ==>
         raised == None &&
         translationUnitModule == ModuleFor(v.value, module0) &&
         tmpFilePath == Defaulted(tmp, PathJoin(tempDir, TmpFileName)) &&
         stdFlag == Defaulted(std, PluginSettings.DefaultStdFlag))
    }

    /** `load_settings()` */
    method LoadSettings(settings: map<string, Value>, tempDir: string)
      modifies this
      ensures Read(settings) && Finished(settings, tempDir, old(translationUnitModule))
    {
      ReadSettings(settings);
      FinishLoad(tempDir);
    }

    /** The rest of `load_settings` after the copying: the version lookup,
        then the defaults unless it raised. */
    method FinishLoad(tempDir: string)
      modifies this`translationUnitModule, this`raised, this`tmpFilePath, this`stdFlag
      ensures var v := ClangVersion(clangBinary);
        (v.Err? ==>
           raised == Some(v.message) && translationUnitModule == old(translationUnitModule) &&
           tmpFilePath == old(tmpFilePath) && stdFlag == old(stdFlag)) &&
        (v.Ok? ==>
           raised == None &&
           translationUnitModule == ModuleFor(v.value, old(translationUnitModule)) &&
           tmpFilePath == Defaulted(old(tmpFilePath), PathJoin(tempDir, TmpFileName)) &&
           stdFlag == Defaulted(old(stdFlag), PluginSettings.DefaultStdFlag))
    {
      LoadCorrectClangVersion();
      if raised.Some? {
        return;
      }
      ApplyDefaults(tempDir);
    }

    /** The `get` calls at the start of `load_settings`. */
    method ReadSettings(settings: map<string, Value>)
      modifies this`hasSublSettings, this`verbose, this`completeAll, this`includeParentFolder, this`tmpFilePath,
        this`defaultEncoding, this`selectors, this`includeDirs, this`clangBinary, this`stdFlag
      ensures Read(settings)
      ensures tmpFilePath == PluginSettings.Get(settings, "tmp_file_path") && stdFlag == PluginSettings.Get(settings, "std_flag")
    {
      hasSublSettings, verbose, completeAll, includeParentFolder := true,
        PluginSettings.Get(settings, "verbose"), PluginSettings.Get(settings, "autocomplete_all"),
        PluginSettings.Get(settings, "include_parent_folder");
      tmpFilePath, defaultEncoding, selectors := PluginSettings.Get(settings, "tmp_file_path"),
        PluginSettings.Get(settings, "default_encoding"), PluginSettings.Get(settings, "selectors");
      includeDirs, clangBinary, stdFlag := PluginSettings.Get(settings, "include_dirs"),
        PluginSettings.Get(settings, "clang_binary"), PluginSettings.Get(settings, "std_flag");
    }

    /** The two defaults at the end of `load_settings`. */
    method ApplyDefaults(tempDir: string)
      modifies this`tmpFilePath, this`stdFlag
      ensures tmpFilePath == Defaulted(old(tmpFilePath), PathJoin(tempDir, TmpFileName))
      ensures stdFlag == Defaulted(old(stdFlag), PluginSettings.DefaultStdFlag)
    {
      if tmpFilePath == Null {
        tmpFilePath := Str(PathJoin(tempDir, TmpFileName));
      }
      if stdFlag == Null {
        stdFlag := Str(PluginSettings.DefaultStdFlag);
      }
    }

    /** `load_correct_clang_version(clang_binary)`: the bindings module is
        replaced only when the version found has one; a lookup that raises
        is recorded in `raised`. */
    method LoadCorrectClangVersion()
      modifies this`translationUnitModule, this`raised
      ensures var v := ClangVersion(clangBinary);
        (v.Err? ==> raised == Some(v.message) && translationUnitModule == old(translationUnitModule)) &&
        (v.Ok? ==> raised == None && translationUnitModule == ModuleFor(v.value, old(translationUnitModule)))
    {
      raised := None;
      var version := ClangVersion(clangBinary);
      if version.Err? {
        raised := Some(version.message);
        return;
      }
      if version.value.Some? && version.value.value in CindexDict {
        translationUnitModule := Some(CindexDict[version.value.value]);
      }
    }

    /** A load that raises nothing leaves the standard flag and the temp
        file set: "-std=c++11" and the temp folder's "auto_complete_tmp"
        when the settings give none, the given values otherwise. */
    lemma LoadedDefaults(settings: map<string, Value>, tempDir: string, module0: Option<string>)
      requires Finished(settings, tempDir, module0) && raised.None?
      ensures stdFlag != Null && tmpFilePath != Null
      ensures PluginSettings.Get(settings, "std_flag") == Null ==> stdFlag == Str(PluginSettings.DefaultStdFlag)
      ensures PluginSettings.Get(settings, "std_flag") != Null ==> stdFlag == PluginSettings.Get(settings, "std_flag")
      ensures PluginSettings.Get(settings, "tmp_file_path") == Null ==> tmpFilePath == Str(PathJoin(tempDir, TmpFileName))
      ensures PluginSettings.Get(settings, "tmp_file_path") != Null ==> tmpFilePath == PluginSettings.Get(settings, "tmp_file_path")
    {
    }

    /** The settings `is_valid` reads after `subl_settings`, before it
        comes to the standard flag. */
    function CheckedBeforeStd(): seq<Value>
      reads this
    {
      [verbose, includeParentFolder, completeAll, defaultEncoding, selectors, includeDirs, clangBinary]
    }

    /** The settings the corrected `is_valid` checks after `subl_settings`. */
    function Checked(): seq<Value>
      reads this
    {
      CheckedBeforeStd() + [stdFlag]
    }

    /** `is_valid()` as written: every check but the last reads a setting;
        the last reads an undefined name and raises. */
    function IsValidAsWritten(): (r: Result<bool>)
      reads this
      ensures r.Ok? ==> !r.value
      ensures r.Err? <==> hasSublSettings && Null !in CheckedBeforeStd()
    {
      if !hasSublSettings then Ok(false)
      else if verbose == Null then Ok(false)
      else if includeParentFolder == Null then Ok(false)
      else if completeAll == Null then Ok(false)
      else if defaultEncoding == Null then Ok(false)
      else if selectors == Null then Ok(false)
      else if includeDirs == Null then Ok(false)
      else if clangBinary == Null then Ok(false)
      else Err(UndefinedStdFlag)
    }

    /** `is_valid()` with the last check reading the setting, as its doc
        says: False exactly when some setting is None. */
    function IsValid(): (r: bool)
      reads this
      ensures r <==> hasSublSettings && Null !in Checked()
      ensures r <==> ValidButDirs() && includeDirs != Null
    {
      if !hasSublSettings then false
      else if verbose == Null then false
      else if includeParentFolder == Null then false
      else if completeAll == Null then false
      else if defaultEncoding == Null then false
      else if selectors == Null then false
      else if includeDirs == Null then false
      else if clangBinary == Null then false
      else stdFlag != Null
    }

    /** The checks of the corrected `is_valid` on the settings other than
        `include_dirs`. */
    predicate ValidButDirs()
      reads this`hasSublSettings, this`verbose, this`completeAll, this`includeParentFolder,
        this`defaultEncoding, this`selectors, this`clangBinary, this`stdFlag
    {
      hasSublSettings && verbose != Null && includeParentFolder != Null && completeAll != Null &&
      defaultEncoding != Null && selectors != Null && clangBinary != Null && stdFlag != Null
    }

    /** The code as written never answers True: exactly the settings the
        corrected check accepts make it raise. */
    lemma IsValidAsWrittenRaises()
      requires stdFlag != Null
      ensures IsValidAsWritten() != Ok(true)
      ensures IsValid() <==> IsValidAsWritten() == Err(UndefinedStdFlag)
    {
    }
  }

  /** `has_valid_extension(view)` for the view's file name, None without
      one: a valid name ends in one of the listed extensions, so a name
      without a dot is never valid. */
  function HasValidExtension(fileName: Option<string>): (r: bool)
    ensures r ==> fileName.Some? && exists k :: 0 <= k < |ValidExtensions| && EndsWith(fileName.value, ValidExtensions[k])
    ensures fileName.Some? && '.' !in fileName.value ==> !r
  {
    if fileName.None? || fileName.value == "" then false
    else
      ExtensionSuffix(fileName.value);
      SplitExt(fileName.value).1 in ValidExtensions
  }

  /** The extension `splitext` finds is the end of the name. */
  lemma ExtensionSuffix(p: string)
    ensures EndsWith(p, SplitExt(p).1)
  {
    var (stem, ext) := SplitExt(p);
    assert p == stem + ext;
    assert p[|p| - |ext|..] == ext;
  }

  // The selector before the cursor

  /** `selector in body[pos-len(selector):pos]`, with Python's slicing. */
  predicate SelectorBefore(body: string, pos: int, selector: string) {
    Contains(Slice(body, pos - |selector|, pos), selector)
  }

  /** What `valid_selector_in_focus(body, pos)` answers. */
  predicate InFocus(body: string, pos: int, selectors: seq<string>, completeAll: bool) {
    completeAll || exists k :: 0 <= k < |selectors| && SelectorBefore(body, pos, selectors[k])
  }

  /** `valid_selector_in_focus(body, pos)`: the loop records whether any
      selector is found, and does not stop at the first. */
  method ValidSelectorInFocus(body: string, pos: int, selectors: seq<string>, completeAll: bool) returns (valid: bool)
    ensures valid == InFocus(body, pos, selectors, completeAll)
  {
    if completeAll {
      return true;
    }
    var selectorIsValid := false;
    var k := 0;
    while k < |selectors|
      invariant k <= |selectors|
      invariant selectorIsValid <==> exists j :: 0 <= j < k && SelectorBefore(body, pos, selectors[j])
    {
      var selector := selectors[k];
      if Contains(Slice(body, pos - |selector|, pos), selector) {
        selectorIsValid := true;
      }
      k := k + 1;
    }
    return selectorIsValid;
  }

  /** With the cursor far enough in, a selector is found exactly when the
      text right before the cursor is that selector. */
  lemma SelectorBeforeMeans(body: string, pos: int, selector: string)
    requires |selector| <= pos <= |body|
    ensures SelectorBefore(body, pos, selector) <==> body[pos - |selector|..pos] == selector
  {
    var w := body[pos - |selector|..pos];
    assert Slice(body, pos - |selector|, pos) == w;
    if body[pos - |selector|..pos] == selector {
      assert OccursAt(w, selector, 0);
    }
    if Contains(w, selector) {
      var i :| 0 <= i <= |w| && OccursAt(w, selector, i);
      assert i == 0 && w[..|selector|] == w;
    }
  }

  // The cursor's row and column

  /** `row = body[:pos].count('\n') + 1` and
      `col = pos - body.rfind("\n", 0, len(body[:pos]))`. */
  function RowCol(body: string, pos: int): (int, int) {
    var before := Slice(body, 0, pos);
    (CountChar(before, '\n') + 1, pos - LastIndexOf(before, '\n'))
  }

  lemma LastIndexOfAbsent(s: string, c: char)
    ensures LastIndexOf(s, c) == -1 <==> c !in s
  {
    if c in s {
      var i :| 0 <= i < |s| && s[i] == c;
    }
  }

  /** Both are 1-based: the row is one more than the line breaks before the
      cursor; the `col - 1` characters before the cursor hold no break and
      follow one, or the start of the text; the column is `pos + 1` exactly
      on the first row. */
  lemma RowColMeaning(body: string, pos: int)
    requires 0 <= pos <= |body|
    ensures var (row, col) := RowCol(body, pos);
      row == CountChar(body[..pos], '\n') + 1 &&
      1 <= col <= pos + 1 &&
      (forall i :: pos - col < i < pos ==> body[i] != '\n') &&
      (col <= pos ==> body[pos - col] == '\n') &&
      (row == 1 <==> col == pos + 1)
  {
    var before := body[..pos];
    assert Slice(body, 0, pos) == before;
    LastIndexOfAbsent(before, '\n');
    var last := LastIndexOf(before, '\n');
    forall i | last < i < pos ensures body[i] != '\n' {
      assert before[i] == body[i];
    }
    if last >= 0 {
      assert before[last] == body[last];
    }
  }

  // The plugin

  /** The list `populate_include_dirs` leaves behind when every configured
      folder is a string: the folders rewritten in place, then the file's
      folder, then its parent when the setting says so. */
  function AfterPopulate(items: seq<Value>, vars: map<string, string>, parentFolder: bool, cwd: string): seq<Value> {
    MapSeq(Rewrite(vars, cwd), items) + [Str(CurrentFolder(vars))] + (if parentFolder then [Str(ParentFolder(vars))] else [])
  }

  /** `variables['folder']`, or "" */
  function ProjectPath(vars: map<string, string>): string {
    if "folder" in vars then vars["folder"] else ""
  }

  /** `variables['project_base_name']`, or "" */
  function ProjectName(vars: map<string, string>): string {
    if "project_base_name" in vars then vars["project_base_name"] else ""
  }

  /** `path.dirname(variables['file'])`, or "" */
  function CurrentFolder(vars: map<string, string>): string {
    if "file" in vars then Dirname(vars["file"]) else ""
  }

  /** `path.join(path.dirname(variables['file']), "..")`, or "" */
  function ParentFolder(vars: map<string, string>): string {
    if "file" in vars then PathJoin(Dirname(vars["file"]), "..") else ""
  }

  /** One configured folder as the loop rewrites it. */
  function Rewrite(vars: map<string, string>, cwd: string): Value -> Value {
    (v: Value) => if v.Str? then Str(PluginSettings.Substituted(v.s, ProjectName(vars), ProjectPath(vars), cwd)) else v
  }

  /** The first item that is not a string, or the length. */
  function FirstNonString(items: seq<Value>): (n: nat)
    ensures n <= |items|
    ensures forall k :: 0 <= k < n ==> items[k].Str?
    ensures n < |items| ==> !items[n].Str?
  {
    if items == [] || !items[0].Str? then 0
    else
      var n := 1 + FirstNonString(items[1..]);
      assert forall k :: 1 <= k < n ==> items[k] == items[1..][k - 1];
      n
  }

  /** The list after the loop stopped at item `n`: the items before it
      rewritten, the others as they were. */
  function RewrittenUpTo(items: seq<Value>, n: nat, f: Value -> Value): seq<Value>
    requires n <= |items|
  {
    MapSeq(f, items[..n]) + items[n..]
  }

  lemma RewrittenPointwise(items: seq<Value>, n: nat, f: Value -> Value, current: seq<Value>)
    requires n <= |items| == |current|
    requires forall k :: 0 <= k < n ==> current[k] == f(items[k])
    requires forall k :: n <= k < |items| ==> current[k] == items[k]
    ensures current == RewrittenUpTo(items, n, f)
  {
    forall k | 0 <= k < n ensures current[k] == RewrittenUpTo(items, n, f)[k] {
      MapSeqIndex(f, items[..n], k);
    }
  }

  /** Every item the rewriting produces is a string again, so a second call
      finds the list of the first call one or two entries longer. */
  lemma AfterPopulateStrings(items: seq<Value>, vars: map<string, string>, parentFolder: bool, cwd: string)
    requires forall k :: 0 <= k < |items| ==> items[k].Str?
    ensures var after := AfterPopulate(items, vars, parentFolder, cwd);
      |after| == |items| + 1 + (if parentFolder then 1 else 0) &&
      forall k :: 0 <= k < |after| ==> after[k].Str?
  {
    var f := Rewrite(vars, cwd);
    forall k | 0 <= k < |items| ensures MapSeq(f, items)[k].Str? {
      MapSeqIndex(f, items, k);
    }
  }

  /** Calling `populate_include_dirs` twice leaves the file's folder in the
      settings twice: the list grows by the same amount on every call. */
  lemma PopulateTwiceGrows(items: seq<Value>, vars: map<string, string>, parentFolder: bool, cwd: string)
    requires forall k :: 0 <= k < |items| ==> items[k].Str?
    ensures var once := AfterPopulate(items, vars, parentFolder, cwd);
      var twice := AfterPopulate(once, vars, parentFolder, cwd);
      |twice| == |items| + 2 * (1 + (if parentFolder then 1 else 0)) && twice != once &&
      twice[|once|] == Str(CurrentFolder(vars))
  {
    AfterPopulateStrings(items, vars, parentFolder, cwd);
    var once := AfterPopulate(items, vars, parentFolder, cwd);
    AfterPopulateStrings(once, vars, parentFolder, cwd);
  }

  /** What `populate_include_dirs` does to the `include_dirs` setting: the
      answer, an error for a value that is not a list or an item that is not
      a string, and the value the setting holds afterwards. */
  function Populated(dirs: Value, vars: map<string, string>, parentFolder: bool, cwd: string): (r: (Result<Value>, Value))
    ensures r.0.Ok? <==> dirs.List? && forall k :: 0 <= k < |dirs.items| ==> dirs.items[k].Str?
    ensures r.0.Ok? ==> r.0.value == r.1 && r.1.List? && forall k :: 0 <= k < |r.1.items| ==> r.1.items[k].Str?
    ensures r.0.Err? && !dirs.List? ==> r.1 == dirs
  {
    if !dirs.List? then (Err(NotAList), dirs)
    else
      var n := FirstNonString(dirs.items);
      if n < |dirs.items| then (Err(NotAString), List(RewrittenUpTo(dirs.items, n, Rewrite(vars, cwd))))
      else
        AfterPopulateStrings(dirs.items, vars, parentFolder, cwd);
        (Ok(List(AfterPopulate(dirs.items, vars, parentFolder, cwd))), List(AfterPopulate(dirs.items, vars, parentFolder, cwd)))
  }

  /** A list populated once holds strings only, so populating it again
      raises nothing and adds the same folders once more. */
  lemma PopulatedAgain(dirs: Value, vars: map<string, string>, parentFolder: bool, cwd: string)
    requires Populated(dirs, vars, parentFolder, cwd).0.Ok?
    ensures var once := Populated(dirs, vars, parentFolder, cwd).1;
      var twice := Populated(once, vars, parentFolder, cwd);
      twice.0.Ok? && twice.1 == List(AfterPopulate(once.items, vars, parentFolder, cwd)) &&
      |twice.1.items| == |once.items| + 1 + (if parentFolder then 1 else 0)
  {
    var items := dirs.items;
    assert FirstNonString(items) == |items|;
    AfterPopulateStrings(items, vars, parentFolder, cwd);
    var once := AfterPopulate(items, vars, parentFolder, cwd);
    FirstNonStringAt(once, |once|);
    AfterPopulateStrings(once, vars, parentFolder, cwd);
  }

  /** The error `load_correct_clang_version` raises while `Settings()`
      loads `settingsMap`, if any. */
  function LoadError(settingsMap: map<string, Value>): Option<string> {
    var v := ClangVersion(PluginSettings.Get(settingsMap, "clang_binary"));
    if v.Err? then Some(v.message) else None
  }

  /** The selectors `valid_selector_in_focus` reads: none when every
      position completes, otherwise the items of the setting, each of which
      `len` and `in` need to be a string. */
  function FocusSelectors(selectors: Value, completeAll: bool): Result<seq<string>> {
    if completeAll then Ok([]) else PluginSettings.StringItems(selectors)
  }

  /** What the query raises when `init_completer` could not create the
      view's translation unit: `from_source` on a missing bindings module
      raises inside the `try`, and the unit is then missing from
      `translation_units`. */
  const MissingUnit: string := "KeyError: the view has no translation unit"

  /** The loop of `init_completer` that puts "-I" before each include
      folder; a folder that is not a string makes the `+` raise. */
  method IncludeFlags(dirs: seq<Value>) returns (r: Result<seq<Value>>)
    ensures r.Ok? <==> forall k :: 0 <= k < |dirs| ==> dirs[k].Str?
    ensures r.Ok? ==> |r.value| == |dirs| && forall k :: 0 <= k < |dirs| ==> r.value[k] == Str("-I" + dirs[k].s)
  {
    var includes: seq<Value> := [];
    for i := 0 to |dirs|
      invariant |includes| == i
      invariant forall k :: 0 <= k < i ==> dirs[k].Str? && includes[k] == Str("-I" + dirs[k].s)
    {
      if !dirs[i].Str? {
        return Err(NotAString);
      }
      includes := includes + [Str("-I" + dirs[i].s)];
    }
    return Ok(includes);
  }

  /** The flags `init_completer` hands to `from_source` once the include
      folders are populated: an error populating them is passed on, and
      otherwise the standard flag comes first, then "-I" before each
      folder, in order. */
  method CompleterFlags(stdFlag: Value, dirs: Result<Value>) returns (r: Result<seq<Value>>)
    requires dirs.Ok? ==> dirs.value.List? && forall k :: 0 <= k < |dirs.value.items| ==> dirs.value.items[k].Str?
    ensures dirs.Err? ==> r == Err(dirs.message)
    ensures dirs.Ok? ==>
      r.Ok? && |r.value| == |dirs.value.items| + 1 && r.value[0] == stdFlag &&
      forall k :: 0 <= k < |dirs.value.items| ==> r.value[k + 1] == Str("-I" + dirs.value.items[k].s)
  {
    if dirs.Err? {
      return Err(dirs.message);
    }
    var includes := IncludeFlags(dirs.value.items);
    return Ok([stdFlag] + includes.value);
  }

  /** What `on_query_completions` answers once the settings hold strings
      for the selectors: nothing without a selector before the cursor or
      without results, otherwise the completions built from the results. */
  function Answer(body: string, pos: int, selectors: seq<string>, completeAll: bool,
                  results: Option<seq<seq<LibClang.Chunk>>>): (r: Result<Option<seq<LibClang.Completion>>>)
    ensures !InFocus(body, pos, selectors, completeAll) ==> r == Ok(None)
    ensures results.None? || results.value == [] ==> r == Ok(None)
    ensures InFocus(body, pos, selectors, completeAll) && results.Some? && results.value != [] ==>
      (r.Ok? <==> LibClang.Completions(results.value, None).Ok?) &&
      (r.Ok? ==> r.value == Some(LibClang.Completions(results.value, None).value))
  {
    if !InFocus(body, pos, selectors, completeAll) || results.None? || results.value == [] then Ok(None)
    else
      match LibClang.Completions(results.value, None)
      case Err(e) => Err(e)
      case Ok(c) => Ok(Some(c))
  }

  /** The loop of `populate_include_dirs` that rewrites the configured
      folders one by one in place, up to the first that is not a string,
      where `re.sub` raises. */
  method RewriteItems(items: seq<Value>, vars: map<string, string>, cwd: string) returns (dirs: seq<Value>, n: nat)
    ensures n == FirstNonString(items)
    ensures dirs == RewrittenUpTo(items, n, Rewrite(vars, cwd))
  {
    var f := Rewrite(vars, cwd);
    var projectPath, projectName := ProjectPath(vars), ProjectName(vars);
    dirs := items;
    var i := 0;
    while i < |items| && items[i].Str?
      invariant i <= |items| == |dirs|
      invariant forall k :: 0 <= k < i ==> items[k].Str?
      invariant forall k :: 0 <= k < i ==> dirs[k] == f(items[k])
      invariant forall k :: i <= k < |items| ==> dirs[k] == items[k]
    {
      assert dirs[i] == items[i];
      var dir := Replace(dirs[i].s, PluginSettings.ProjectBasePathVar, projectPath);
      dir := Replace(dir, PluginSettings.ProjectNameVar, projectName);
      dir := AbsPath(dir, cwd);
      assert Str(dir) == f(items[i]);
      dirs := dirs[i := Str(dir)];
      i := i + 1;
    }
    RewrittenPointwise(items, i, f, dirs);
    FirstNonStringAt(items, i);
    n := i;
  }

  /** The index where the rewriting loop stops is the first non-string. */
  lemma FirstNonStringAt(items: seq<Value>, i: nat)
    requires i <= |items| && (i == |items| || !items[i].Str?)
    requires forall k :: 0 <= k < i ==> items[k].Str?
    ensures FirstNonString(items) == i
  {
  }

  class ClangAutoComplete {
    var settings: Settings

    /** `ClangAutoComplete()`: loads the settings. */
    constructor (settingsMap: map<string, Value>, tempDir: string)
      ensures fresh(settings) && settings.Read(settingsMap) && settings.Finished(settingsMap, tempDir, None)
    {
      settings := new Settings(settingsMap, tempDir);
    }

    /** The check `on_query_completions` and `init_completer` start with:
        settings the corrected `is_valid` rejects are loaded again from
        `settingsMap`; a load that raises keeps the old settings. */
    method ReloadIfInvalid(settingsMap: map<string, Value>, tempDir: string) returns (raised: Option<string>)
      modifies this`settings
      ensures old(settings.IsValid()) ==> settings == old(settings) && raised.None?
      ensures !old(settings.IsValid()) ==> raised == LoadError(settingsMap)
      ensures !old(settings.IsValid()) && raised.Some? ==> settings == old(settings)
      ensures !old(settings.IsValid()) && raised.None? ==>
        fresh(settings) && settings.Read(settingsMap) && settings.Finished(settingsMap, tempDir, None)
    {
      if settings.IsValid() {
        return None;
      }
      var loaded := new Settings(settingsMap, tempDir);
      if loaded.raised.Some? {
        return loaded.raised;
      }
      settings := loaded;
      return None;
    }

    /** `populate_include_dirs()` as written: the settings' own list is
        rewritten in place and then extended, so the folders are added again
        on every call. `vars` is `extract_variables()` and `cwd` the folder
        `abspath` resolves against. An item that is not a string stops the
        rewriting with the earlier items already rewritten. */
    method PopulateIncludeDirs(vars: map<string, string>, cwd: string) returns (r: Result<Value>)
      modifies settings`includeDirs
      ensures !old(settings.includeDirs).List? ==> r.Err? && settings.includeDirs == old(settings.includeDirs)
      ensures old(settings.includeDirs).List? ==>
        var items := old(settings.includeDirs).items;
        var n := FirstNonString(items);
        (n < |items| ==> r.Err? && settings.includeDirs == List(RewrittenUpTo(items, n, Rewrite(vars, cwd)))) &&
        (n == |items| ==>
          r == Ok(settings.includeDirs) &&
          settings.includeDirs == List(AfterPopulate(items, vars, Truthy(settings.includeParentFolder), cwd)))
      ensures (r, settings.includeDirs) == Populated(old(settings.includeDirs), vars, Truthy(settings.includeParentFolder), cwd)
    {
      if !settings.includeDirs.List? {
        return Err(NotAList);
      }
      var items := settings.includeDirs.items;
      var parent := Truthy(settings.includeParentFolder);
      var dirs, n := RewriteItems(items, vars, cwd);
      if n < |items| {
        settings.includeDirs := List(dirs);
        return Err(NotAString);
      }
      assert items[..n] == items && items[n..] == [];
      assert dirs == MapSeq(Rewrite(vars, cwd), items);
      dirs := dirs + [Str(CurrentFolder(vars))];
      if parent {
        dirs := dirs + [Str(ParentFolder(vars))];
      }
      assert dirs == AfterPopulate(items, vars, parent, cwd);
      settings.includeDirs := List(dirs);
      return Ok(List(dirs));
    }

    /** The start `on_query_completions` and `init_completer` share: the
        settings are checked as above, then the include folders populated;
        the answer is the error either step raises, or the populated list.
        Reloaded settings hold the include folders of `settingsMap`. */
    method ReloadAndPopulate(settingsMap: map<string, Value>, tempDir: string, vars: map<string, string>, cwd: string)
      returns (r: Result<Value>)
      modifies this, settings`includeDirs
      ensures old(settings.IsValid()) ==> settings == old(settings)
      ensures !old(settings.IsValid()) && LoadError(settingsMap).Some? ==>
        r == Err(LoadError(settingsMap).value) && settings == old(settings) && settings.includeDirs == old(settings.includeDirs)
      ensures !old(settings.IsValid()) && LoadError(settingsMap).None? ==>
        fresh(settings) && settings.ReadButDirs(settingsMap) && settings.Finished(settingsMap, tempDir, None)
      ensures old(settings.IsValid()) || LoadError(settingsMap).None? ==>
        var d0 := if old(settings.IsValid()) then old(settings.includeDirs) else PluginSettings.Get(settingsMap, "include_dirs");
        (r, settings.includeDirs) == Populated(d0, vars, Truthy(settings.includeParentFolder), cwd)
    {
      var raised := ReloadIfInvalid(settingsMap, tempDir);
      if raised.Some? {
        return Err(raised.value);
      }
      r := PopulateIncludeDirs(vars, cwd);
    }

    /** `init_completer(view)` up to the call into clang: the settings are
        checked and the include folders populated as above, and the flags
        for `from_source` built, the standard flag first. */
    method InitCompleter(settingsMap: map<string, Value>, tempDir: string, vars: map<string, string>, cwd: string)
      returns (r: Result<seq<Value>>)
      modifies this, settings`includeDirs
      ensures old(settings.IsValid()) ==> settings == old(settings)
      ensures !old(settings.IsValid()) && LoadError(settingsMap).Some? ==>
        r == Err(LoadError(settingsMap).value) && settings == old(settings) && settings.includeDirs == old(settings.includeDirs)
      ensures !old(settings.IsValid()) && LoadError(settingsMap).None? ==>
        fresh(settings) && settings.ReadButDirs(settingsMap) && settings.Finished(settingsMap, tempDir, None)
      ensures old(settings.IsValid()) || LoadError(settingsMap).None? ==>
        var d0 := if old(settings.IsValid()) then old(settings.includeDirs) else PluginSettings.Get(settingsMap, "include_dirs");
        var p := Populated(d0, vars, Truthy(settings.includeParentFolder), cwd);
        settings.includeDirs == p.1 &&
        (p.0.Err? ==> r == Err(p.0.message)) &&
        (p.0.Ok? ==>
           r.Ok? && |r.value| == |p.1.items| + 1 && r.value[0] == settings.stdFlag &&
           forall k :: 0 <= k < |p.1.items| ==> r.value[k + 1] == Str("-I" + p.1.items[k].s))
    {
      var dirs := ReloadAndPopulate(settingsMap, tempDir, vars, cwd);
      r := CompleterFlags(settings.stdFlag, dirs);
    }

    /** `init_completer(view)` as `on_query_completions` calls it, right
        after populating the include folders itself: settings that pass the
        corrected `is_valid` get the same folders added a second time;
        others, which were just loaded from `settingsMap`, are loaded again
        and populated once, which gives the same settings. Either way nothing
        raises before the call into clang. */
    method InitCompleterInQuery(settingsMap: map<string, Value>, tempDir: string, vars: map<string, string>, cwd: string)
      requires settings.includeDirs.List? && forall k :: 0 <= k < |settings.includeDirs.items| ==> settings.includeDirs.items[k].Str?
      requires !settings.ValidButDirs() ==>
        settings.ReadButDirs(settingsMap) && settings.Finished(settingsMap, tempDir, None) && settings.raised.None? &&
        settings.includeDirs == Populated(PluginSettings.Get(settingsMap, "include_dirs"), vars, Truthy(settings.includeParentFolder), cwd).1
      modifies this, settings`includeDirs
      ensures old(settings.IsValid()) ==> settings == old(settings)
      ensures !old(settings.IsValid()) ==>
        fresh(settings) && settings.ReadButDirs(settingsMap) && settings.Finished(settingsMap, tempDir, None)
      ensures settings.completeAll == old(settings.completeAll) && settings.selectors == old(settings.selectors)
      ensures settings.includeParentFolder == old(settings.includeParentFolder)
      ensures settings.translationUnitModule == old(settings.translationUnitModule)
      ensures settings.IsValid() == old(settings.IsValid())
      ensures settings.includeDirs ==
        if old(settings.IsValid()) then Populated(old(settings.includeDirs), vars, Truthy(settings.includeParentFolder), cwd).1
        else old(settings.includeDirs)
    {
      ghost var validButDirs := settings.ValidButDirs();
      var flags := InitCompleter(settingsMap, tempDir, vars, cwd);
      assert settings.ValidButDirs() == validButDirs;
    }

    /** The rest of `on_query_completions` once the include folders are
        populated: the selectors are read only when not every position
        completes, the answer is None without a selector before the cursor,
        a view without a unit goes through `init_completer`, and a unit that
        could not be created makes the lookup raise. */
    method AnswerQuery(settingsMap: map<string, Value>, tempDir: string, vars: map<string, string>, cwd: string,
                       hasUnit: bool, body: string, pos: int, results: Option<seq<seq<LibClang.Chunk>>>)
      returns (r: Result<Option<seq<LibClang.Completion>>>, row: int, col: int)
      requires settings.includeDirs.List? && forall k :: 0 <= k < |settings.includeDirs.items| ==> settings.includeDirs.items[k].Str?
      requires !settings.ValidButDirs() ==>
        settings.ReadButDirs(settingsMap) && settings.Finished(settingsMap, tempDir, None) && settings.raised.None? &&
        settings.includeDirs == Populated(PluginSettings.Get(settingsMap, "include_dirs"), vars, Truthy(settings.includeParentFolder), cwd).1
      modifies this, settings`includeDirs
      ensures old(settings.IsValid()) || hasUnit ==> settings == old(settings)
      ensures !old(settings.IsValid()) ==>
        (settings == old(settings) || fresh(settings)) && settings.ReadButDirs(settingsMap) && settings.Finished(settingsMap, tempDir, None)
      ensures settings.completeAll == old(settings.completeAll) && settings.selectors == old(settings.selectors)
      ensures settings.includeParentFolder == old(settings.includeParentFolder)
      ensures settings.translationUnitModule == old(settings.translationUnitModule)
      ensures settings.IsValid() == old(settings.IsValid())
      ensures var sel := FocusSelectors(settings.selectors, Truthy(settings.completeAll));
        (sel.Err? ==> r == Err(sel.message) && settings.includeDirs == old(settings.includeDirs)) &&
        (sel.Ok? && !InFocus(body, pos, sel.value, Truthy(settings.completeAll)) ==>
           r == Ok(None) && settings.includeDirs == old(settings.includeDirs))
      ensures var sel := FocusSelectors(settings.selectors, Truthy(settings.completeAll));
        sel.Ok? && InFocus(body, pos, sel.value, Truthy(settings.completeAll)) ==>
          (row, col) == RowCol(body, pos) &&
          r == (if !hasUnit && settings.translationUnitModule.None? then Err(MissingUnit)
                else Answer(body, pos, sel.value, Truthy(settings.completeAll), results)) &&
          settings.includeDirs ==
            if !hasUnit && old(settings.IsValid()) then Populated(old(settings.includeDirs), vars, Truthy(settings.includeParentFolder), cwd).1
            else old(settings.includeDirs)
    {
      row, col := 0, 0;
      var selectors: seq<string> := [];
      if !Truthy(settings.completeAll) {
        var items := PluginSettings.StringItems(settings.selectors);
        if items.Err? {
          return Err(items.message), row, col;
        }
        selectors := items.value;
      }
      var valid := ValidSelectorInFocus(body, pos, selectors, Truthy(settings.completeAll));
      if !valid {
        return Ok(None), row, col;
      }
      var rowCol := RowCol(body, pos);
      row, col := rowCol.0, rowCol.1;
      if !hasUnit {
        InitCompleterInQuery(settingsMap, tempDir, vars, cwd);
        if settings.translationUnitModule.None? {
          return Err(MissingUnit), row, col;
        }
      }
      if results.None? || |results.value| == 0 {
        return Ok(None), row, col;
      }
      var completions := LibClang.ProcessCompletions(results.value);
      if completions.Err? {
        return Err(completions.message), row, col;
      }
      return Ok(Some(completions.value)), row, col;
    }

    /** `on_query_completions(view, prefix, locations)` for a view whose text
        is `body` with the cursor at `pos`; `hasUnit` says whether the view
        has a translation unit, and `results` are the chunks of clang's
        completion results for it (None when clang gives none). The settings
        are checked as above and the include folders populated, each step
        raising what it raises; the selectors are read only when not every
        position completes. The answer is None when no selector is before the
        cursor or clang has no result; `row` and `col` are where clang is
        asked. A view without a unit goes through `init_completer`, which
        populates the include folders once more. */
    method OnQueryCompletions(settingsMap: map<string, Value>, tempDir: string, vars: map<string, string>, cwd: string,
                              hasUnit: bool, body: string, pos: int, results: Option<seq<seq<LibClang.Chunk>>>)
      returns (r: Result<Option<seq<LibClang.Completion>>>, row: int, col: int)
      modifies this, settings`includeDirs
      ensures old(settings.IsValid()) ==> settings == old(settings)
      ensures !old(settings.IsValid()) && LoadError(settingsMap).Some? ==>
        r == Err(LoadError(settingsMap).value) && settings == old(settings) && settings.includeDirs == old(settings.includeDirs)
      ensures !old(settings.IsValid()) && LoadError(settingsMap).None? ==>
        fresh(settings) && settings.ReadButDirs(settingsMap) && settings.Finished(settingsMap, tempDir, None)
      ensures old(settings.IsValid()) || LoadError(settingsMap).None? ==>
        var d0 := if old(settings.IsValid()) then old(settings.includeDirs) else PluginSettings.Get(settingsMap, "include_dirs");
        var parent := Truthy(settings.includeParentFolder);
        var p := Populated(d0, vars, parent, cwd);
        var sel := FocusSelectors(settings.selectors, Truthy(settings.completeAll));
        (p.0.Err? ==> r == Err(p.0.message) && settings.includeDirs == p.1) &&
        (p.0.Ok? && sel.Err? ==> r == Err(sel.message) && settings.includeDirs == p.1) &&
        (p.0.Ok? && sel.Ok? && !InFocus(body, pos, sel.value, Truthy(settings.completeAll)) ==>
           r == Ok(None) && settings.includeDirs == p.1)
      ensures old(settings.IsValid()) || LoadError(settingsMap).None? ==>
        var d0 := if old(settings.IsValid()) then old(settings.includeDirs) else PluginSettings.Get(settingsMap, "include_dirs");
        var parent := Truthy(settings.includeParentFolder);
        var p := Populated(d0, vars, parent, cwd);
        var sel := FocusSelectors(settings.selectors, Truthy(settings.completeAll));
        p.0.Ok? && sel.Ok? && InFocus(body, pos, sel.value, Truthy(settings.completeAll)) ==>
          (row, col) == RowCol(body, pos) &&
          r == (if !hasUnit && settings.translationUnitModule.None? then Err(MissingUnit)
                else Answer(body, pos, sel.value, Truthy(settings.completeAll), results)) &&
          settings.includeDirs == (if !hasUnit && settings.IsValid() then Populated(p.1, vars, parent, cwd).1 else p.1)
    {
      row, col := 0, 0;
      ghost var valid0 := settings.IsValid();
      ghost var d0 := if valid0 then settings.includeDirs else PluginSettings.Get(settingsMap, "include_dirs");
      var dirs := ReloadAndPopulate(settingsMap, tempDir, vars, cwd);
      ghost var p := Populated(d0, vars, Truthy(settings.includeParentFolder), cwd);
      if dirs.Err? {
        return Err(dirs.message), row, col;
      }
      assert valid0 ==> settings.ValidButDirs();
      assert !valid0 ==> settings.raised.None?;
      assert settings.includeDirs == p.1;
      ghost var parent := Truthy(settings.includeParentFolder);
      ghost var sel := FocusSelectors(settings.selectors, Truthy(settings.completeAll));
      ghost var valid1 := settings.IsValid();
      r, row, col := AnswerQuery(settingsMap, tempDir, vars, cwd, hasUnit, body, pos, results);
      assert parent == Truthy(settings.includeParentFolder);
      assert sel == FocusSelectors(settings.selectors, Truthy(settings.completeAll));
      assert valid1 == settings.IsValid();
    }
  }
}
