/** plugin/plugin_settings.py: the settings of the older plugin entry point,
    their validity and the include folders built from them. */
module PluginSettings {
  import opened Wrappers
  import opened Strings
  import opened PyPath
  import opened Collections
  import opened SettingsStore

  /** The standard flag used when the settings give none. */
  const DefaultStdFlag: string := "-std=c++11"

  const ProjectBasePathVar: string := "$project_base_path"
  const ProjectNameVar: string := "$project_name"

  /** `list(v)` of a value whose items must all be strings; a non-iterable
      value or a non-string item raises TypeError. */
  function StringItems(v: Value): (r: Result<seq<string>>)
    ensures r.Ok? ==> v.List? || v.Str? || v.Object?
  {
    match PyIter(v)
    case Err(e) => Err(e)
    case Ok(items) => Strs(items)
  }

  function Strs(items: seq<Value>): (r: Result<seq<string>>)
    ensures r.Ok? <==> forall k :: 0 <= k < |items| ==> items[k].Str?
    ensures r.Ok? ==> |r.value| == |items| && forall k :: 0 <= k < |items| ==> r.value[k] == items[k].s
  {
    if items == [] then Ok([])
    else if !items[0].Str? then Err("TypeError: expected string")
    else
      match Strs(items[1..])
      case Err(e) =>
        assert exists k :: 1 <= k < |items| && !items[k].Str? by {
          var j :| 0 <= j < |items| - 1 && !items[1..][j].Str?;
          assert items[j + 1] == items[1..][j];
        }
        Err(e)
      case Ok(rest) =>
        assert forall k :: 1 <= k < |items| ==> items[k] == items[1..][k - 1];
        Ok([items[0].s] + rest)
  }

  /** One configured folder once the project variables are replaced and the
      path made absolute against the working directory `cwd`. */
  function Substituted(dir: string, projectName: string, projectBase: string, cwd: string): string {
    AbsPath(Replace(Replace(dir, ProjectBasePathVar, projectBase), ProjectNameVar, projectName), cwd)
  }

  /** A folder naming neither variable is only made absolute. */
  lemma SubstitutedPlain(dir: string, projectName: string, projectBase: string, cwd: string)
    requires !Contains(dir, ProjectBasePathVar) && !Contains(dir, ProjectNameVar)
    ensures Substituted(dir, projectName, projectBase, cwd) == AbsPath(dir, cwd)
  {
    ReplaceAbsent(dir, ProjectBasePathVar, projectBase);
    ReplaceAbsent(dir, ProjectNameVar, projectName);
  }

  /** The folders `populate_include_dirs` returns: the configured ones with
      their variables replaced, then the file's folder and then its parent,
      each when its flag is set. */
  function PopulatedDirs(dirs: seq<string>, fileFolder: bool, parentFolder: bool, projectName: string,
                         projectBase: string, current: string, parent: string, cwd: string): seq<string> {
    MapSeq(d => Substituted(d, projectName, projectBase, cwd), dirs) +
    (if fileFolder then [current] else []) + (if parentFolder then [parent] else [])
  }

  /** Each configured folder keeps its place, and the current and parent
      folders come after all of them, in this order. */
  lemma PopulatedDirsLayout(dirs: seq<string>, fileFolder: bool, parentFolder: bool, projectName: string,
                            projectBase: string, current: string, parent: string, cwd: string)
    ensures var r := PopulatedDirs(dirs, fileFolder, parentFolder, projectName, projectBase, current, parent, cwd);
      |r| == |dirs| + (if fileFolder then 1 else 0) + (if parentFolder then 1 else 0) &&
      (forall k :: 0 <= k < |dirs| ==> r[k] == Substituted(dirs[k], projectName, projectBase, cwd)) &&
      (fileFolder ==> r[|dirs|] == current) &&
      (parentFolder ==> r[|r| - 1] == parent)
  {
    var f := d => Substituted(d, projectName, projectBase, cwd);
    forall k | 0 <= k < |dirs| {
      MapSeqIndex(f, dirs, k);
    }
  }

  /** `settings.get(key)`: None for a key the settings do not hold. */
  function Get(settings: map<string, Value>, key: string): Value {
    if key in settings then settings[key] else Null
  }

  /** `Settings`: the settings the plugin reads; a value that is None in
      the source is `Null`. */
  class Settings {
    /** `subl_settings is not None` */
    var hasSublSettings: bool
    var verbose: Value
    var includeFileFolder: Value
    var includeParentFolder: Value
    var completeAll: Value
    var triggers: Value
    var includeDirs: Value
    var clangBinary: Value
    var stdFlag: Value
    var searchClangComplete: Value
    var errorsOnSave: Value

    /** `Settings()`: loads the settings. */
    constructor (settings: map<string, Value>)
      ensures Loaded(settings)
    {
      new;
      LoadSettings(settings);
    }

    /** The fields hold what `load_settings` reads from `get`. */
    ghost predicate Loaded(settings: map<string, Value>)
      reads this
    {
      hasSublSettings && verbose == Get(settings, "verbose") && completeAll == Get(settings, "autocomplete_all") &&
      includeParentFolder == Get(settings, "include_file_parent_folder") &&
      includeFileFolder == Get(settings, "include_file_folder") && triggers == Get(settings, "triggers") &&
      includeDirs == Get(settings, "include_dirs") && clangBinary == Get(settings, "clang_binary") &&
      errorsOnSave == Get(settings, "errors_on_save") &&
      stdFlag == (if Get(settings, "std_flag") == Null then Str(DefaultStdFlag) else Get(settings, "std_flag")) &&
      searchClangComplete == Get(settings, "search_clang_complete_file")
    }

    /** `load_settings()`: every setting is read, and a missing `std_flag`
        becomes the default. */
    method LoadSettings(settings: map<string, Value>)
      modifies this
      ensures Loaded(settings)
    {
      var std := Get(settings, "std_flag");
      if std == Null {
        std := Str(DefaultStdFlag);
      }
      hasSublSettings, verbose, completeAll, includeParentFolder, includeFileFolder := true,
        Get(settings, "verbose"), Get(settings, "autocomplete_all"), Get(settings, "include_file_parent_folder"), Get(settings, "include_file_folder");
      triggers, includeDirs, clangBinary, errorsOnSave, stdFlag, searchClangComplete :=
        Get(settings, "triggers"), Get(settings, "include_dirs"), Get(settings, "clang_binary"), Get(settings, "errors_on_save"), std,
        Get(settings, "search_clang_complete_file");
    }

    /** After a load the standard flag is set, so the settings are valid
        exactly when none of the other nine names is missing. */
    lemma LoadedValidity(settings: map<string, Value>)
      requires Loaded(settings)
      ensures stdFlag != Null
      ensures IsValid() <==>
        Get(settings, "verbose") != Null && Get(settings, "autocomplete_all") != Null &&
        Get(settings, "include_file_parent_folder") != Null && Get(settings, "include_file_folder") != Null &&
        Get(settings, "triggers") != Null && Get(settings, "include_dirs") != Null &&
        Get(settings, "clang_binary") != Null && Get(settings, "errors_on_save") != Null &&
        Get(settings, "search_clang_complete_file") != Null
    {
    }

    /** The settings `is_valid` checks, after `subl_settings`. */
    function Checked(): seq<Value>
      reads this
    {
      [verbose, includeParentFolder, includeFileFolder, completeAll, triggers, includeDirs,
       clangBinary, stdFlag, searchClangComplete, errorsOnSave]
    }

    /** `is_valid()`: False as soon as one setting is None. */
    function IsValid(): (r: bool)
      reads this
      ensures r <==> hasSublSettings && Null !in Checked()
    {
      if !hasSublSettings then false
      else if verbose == Null then false
      else if includeParentFolder == Null then false
      else if includeFileFolder == Null then false
      else if completeAll == Null then false
      else if triggers == Null then false
      else if includeDirs == Null then false
      else if clangBinary == Null then false
      else if stdFlag == Null then false
      else if searchClangComplete == Null then false
      else errorsOnSave != Null
    }

    /** `populate_include_dirs(...)`: works on a copy of the configured
        folders, so the settings themselves stay as they are; `cwd` is the
        working directory `abspath` resolves against. */
    method PopulateIncludeDirs(projectName: string, projectBase: string, current: string, parent: string, cwd: string)
      returns (r: Result<seq<string>>)
      ensures r.Err? <==> StringItems(includeDirs).Err?
      ensures r.Ok? ==> r.value == PopulatedDirs(StringItems(includeDirs).value, Truthy(includeFileFolder),
        Truthy(includeParentFolder), projectName, projectBase, current, parent, cwd)
    {
      var items := StringItems(includeDirs);
      if items.Err? {
        return Err(items.message);
      }
      var dirs := SubstituteAll(items.value, projectName, projectBase, cwd);
      if Truthy(includeFileFolder) {
        dirs := dirs + [current];
      }
      if Truthy(includeParentFolder) {
        dirs := dirs + [parent];
      }
      return Ok(dirs);
    }
  }

  /** The loop of `populate_include_dirs` that rewrites each entry of the
      copied list in place. */
  method SubstituteAll(items: seq<string>, projectName: string, projectBase: string, cwd: string)
    returns (dirs: seq<string>)
    ensures dirs == MapSeq(d => Substituted(d, projectName, projectBase, cwd), items)
  {
    var f := d => Substituted(d, projectName, projectBase, cwd);
    dirs := items;
    var i := 0;
    while i < |dirs|
      invariant 0 <= i <= |dirs| && |dirs| == |items|
      invariant forall k :: 0 <= k < i ==> dirs[k] == f(items[k])
      invariant forall k :: i <= k < |dirs| ==> dirs[k] == items[k]
    {
      var dir := Replace(dirs[i], ProjectBasePathVar, projectBase);
      dir := Replace(dir, ProjectNameVar, projectName);
      dir := AbsPath(dir, cwd);
      dirs := dirs[i := dir];
      i := i + 1;
    }
    forall k | 0 <= k < |dirs|
      ensures dirs[k] == MapSeq(f, items)[k]
    {
      MapSeqIndex(f, items, k);
    }
  }
}
