/** plugin/settings/settings_storage.py: the plugin settings as attributes
    read from Sublime's settings (project overrides through their prefixes),
    the cache age in seconds, and the validity check. */
module SettingsStore {
  import opened Wrappers
  import opened Strings
  import opened Collections
  import opened OrderedDicts
  import Tools

  /** A setting's value as Sublime's JSON settings give it. An object keeps
      its pairs in their order. */
  datatype Value =
    | Null
    | Bool(b: bool)
    | Num(n: int)
    | Str(s: string)
    | List(items: seq<Value>)
    | Object(fields: seq<(string, Value)>)

  /** `SettingsStorage.FLAG_SOURCES` */
  const FlagSources: seq<string> :=
    ["CMakeLists.txt", "Makefile", "compile_commands.json", "CppProperties.json",
     "c_cpp_properties.json", ".clang_complete"]

  /** `SettingsStorage.PREFIXES`, in priority order. */
  const Prefixes: seq<string> := ["ecc_", "easy_clang_complete_"]

  /** `SettingsStorage.PROGRESS_STYLES` */
  const ProgressStyles: seq<string> := ["ColorSublime", "Moon", "None"]

  /** `SettingsStorage.GUTTER_STYLES` */
  const GutterStyles: seq<string> := ["color", "mono", "dot", "none"]

  /** `SettingsStorage.NAMES_ENUM` */
  const Names: seq<string> :=
    ["autocomplete_all", "clang_binary", "cmake_binary", "common_flags", "flags_sources",
     "gutter_style", "header_to_source_mapping", "hide_default_completions", "ignore_list",
     "lang_flags", "libclang_path", "max_cache_age", "popup_maximum_height",
     "popup_maximum_width", "progress_style", "show_errors", "show_index_references",
     "show_type_body", "show_type_info", "target_compilers", "triggers",
     "use_default_includes", "use_libclang", "use_libclang_caching", "valid_lang_syntaxes",
     "verbose"]

  const MaxCacheAge: string := "max_cache_age"
  const ProgressStyle: string := "progress_style"
  const GutterStyle: string := "gutter_style"
  const FlagsSourcesName: string := "flags_sources"
  const LangFlags: string := "lang_flags"
  const ValidLangSyntaxes: string := "valid_lang_syntaxes"
  const TargetCompilers: string := "target_compilers"

  /** The cache age used when no setting gives one: 30 minutes. */
  const DefaultMaxCacheAge: string := "00:30:00"

  // ---------------------------------------------------------------------------
  // Python operations on setting values

  /** The object has a pair with this key. */
  predicate HasKey(fields: seq<(string, Value)>, key: string) {
    exists k :: 0 <= k < |fields| && fields[k].0 == key
  }

  /** `obj[key]`: the value of the first pair with the key. */
  function ObjectGet(fields: seq<(string, Value)>, key: string): (r: Option<Value>)
    ensures r.None? <==> !HasKey(fields, key)
    ensures r.Some? ==> exists k :: 0 <= k < |fields| && fields[k] == (key, r.value)
  {
    if fields == [] then None
    else if fields[0].0 == key then Some(fields[0].1)
    else
      var r := ObjectGet(fields[1..], key);
      assert forall k :: 1 <= k < |fields| ==> fields[1..][k - 1] == fields[k];
      r
  }

  /** `x in c` for a list, an object (its keys) or a string (a substring);
      any other container, or an operand Python refuses, raises TypeError. */
  function PyIn(x: Value, c: Value): Result<bool> {
    match c
    case List(items) => Ok(x in items)
    case Object(fields) =>
      if x.Str? then Ok(HasKey(fields, x.s))
      else if x.List? || x.Object? then Err("TypeError: unhashable type")
      else Ok(false)
    case Str(s) =>
      if x.Str? then Ok(Contains(s, x.s)) else Err("TypeError: 'in <string>' requires string as left operand")
    case _ => Err("TypeError: argument of type is not iterable")
  }

  /** `for x in v`: the items of a list, the keys of an object, the
      characters of a string; anything else raises TypeError. */
  function PyIter(v: Value): Result<seq<Value>> {
    match v
    case List(items) => Ok(items)
    case Object(fields) => Ok(MapSeq((p: (string, Value)) => Str(p.0), fields))
    case Str(s) => Ok(MapSeq((c: char) => Str([c]), s))
    case _ => Err("TypeError: object is not iterable")
  }

  /** `bool(v)`: None, False, 0 and empty containers are false. */
  predicate Truthy(v: Value) {
    match v
    case Null => false
    case Bool(b) => b
    case Num(n) => n != 0
    case Str(s) => s != ""
    case List(items) => items != []
    case Object(fields) => fields != []
  }

  /** `repr(v)` */
  function Repr(v: Value): string
    decreases v
  {
    match v
    case Null => "None"
    case Bool(b) => if b then "True" else "False"
    case Num(n) => IntToString(n)
    case Str(s) => "'" + s + "'"
    case List(items) =>
      "[" + Join(seq(|items|, i requires 0 <= i < |items| => Repr(items[i])), ", ") + "]"
    case Object(fields) =>
      "{" + Join(seq(|fields|, i requires 0 <= i < |fields| =>
        (assert fields[i] in fields; "'" + fields[i].0 + "': " + Repr(fields[i].1))), ", ") + "}"
  }

  /** `str(v)`, which `'{}'.format(v)` inserts. */
  function PyStr(v: Value): string {
    if v.Str? then v.s else Repr(v)
  }

  /** `str(xs)` of a list of strings. */
  function StrListRepr(xs: seq<string>): string {
    Repr(List(MapSeq((x: string) => Str(x), xs)))
  }

  /** `v in xs` for a list of strings. */
  predicate InStrings(v: Value, xs: seq<string>) {
    v.Str? && v.s in xs
  }

  // ---------------------------------------------------------------------------
  // __load_vars_from_settings

  /** The attributes of a `SettingsStorage` (its `__dict__`). */
  type AttrDict = Dict<Value>

  /** The attributes `__init__` sets before loading. */
  const InitialAttrs: AttrDict :=
    Dict(["clang_version", "libclang_path", "clang_binary", "cmake_binary", "project_folder",
          "project_name", "_wildcard_values"],
         map["clang_version" := Str(""), "libclang_path" := Str(""), "clang_binary" := Str(""),
             "cmake_binary" := Str(""), "project_folder" := Str(""), "project_name" := Str(""),
             "_wildcard_values" := Object([])])

  /** The prefixes a load tries: the project prefixes for project settings,
      the bare name otherwise. */
  function PrefixesFor(projectSpecific: bool): seq<string> {
    if projectSpecific then Prefixes else [""]
  }

  /** `settings.get(prefix + name)` for each prefix in turn: the first value
      that is not None, else None. */
  function Lookup(get: string -> Value, prefixes: seq<string>, name: string): (r: Value)
    ensures r == Null <==> forall j :: 0 <= j < |prefixes| ==> get(prefixes[j] + name) == Null
  {
    if prefixes == [] then Null
    else if get(prefixes[0] + name) != Null then get(prefixes[0] + name)
    else
      var r := Lookup(get, prefixes[1..], name);
      assert forall j :: 1 <= j < |prefixes| ==> prefixes[1..][j - 1] == prefixes[j];
      r
  }

  /** A project load takes the "ecc_" setting when there is one, else the
      "easy_clang_complete_" one. */
  lemma LookupProject(get: string -> Value, name: string)
    ensures Lookup(get, Prefixes, name) ==
      if get("ecc_" + name) != Null then get("ecc_" + name) else get("easy_clang_complete_" + name)
  {
    var rest := Prefixes[1..];
    assert rest == ["easy_clang_complete_"] && rest[1..] == [];
  }

  /** A plain load reads the bare name. */
  lemma LookupPlain(get: string -> Value, name: string)
    ensures Lookup(get, PrefixesFor(false), name) == get(name)
  {
    assert "" + name == name;
    assert [""][1..] == [];
  }

  /** The attributes after the loop over `names`: each name with a value
      that is not None is set to it, the others keep what they had. */
  function LoadNames(d: AttrDict, get: string -> Value, prefixes: seq<string>, names: seq<string>): AttrDict
    decreases |names|
  {
    if names == [] then d
    else
      var n := |names| - 1;
      var before := LoadNames(d, get, prefixes, names[..n]);
      var v := Lookup(get, prefixes, names[n]);
      if v != Null then before.Put(names[n], v) else before
  }

  /** A name the settings give a value is set to that value; any other
      attribute, and a name the settings leave out, is kept as it was. */
  lemma {:induction false} LoadNamesValue(d: AttrDict, get: string -> Value, prefixes: seq<string>,
                                          names: seq<string>, name: string)
    ensures var r := LoadNames(d, get, prefixes, names);
      if name in names && Lookup(get, prefixes, name) != Null then
        name in r.values && r.values[name] == Lookup(get, prefixes, name)
      else
        (name in r.values <==> name in d.values) && (name in d.values ==> r.values[name] == d.values[name])
    decreases |names|
  {
    if names != [] {
      var n := |names| - 1;
      LoadNamesValue(d, get, prefixes, names[..n], name);
      assert names == names[..n] + [names[n]];
    }
  }

  lemma {:induction false} LoadNamesValid(d: AttrDict, get: string -> Value, prefixes: seq<string>, names: seq<string>)
    requires d.Valid()
    ensures LoadNames(d, get, prefixes, names).Valid()
    decreases |names|
  {
    if names != [] {
      var n := |names| - 1;
      LoadNamesValid(d, get, prefixes, names[..n]);
      PutValid(LoadNames(d, get, prefixes, names[..n]), names[n], Lookup(get, prefixes, names[n]));
    }
  }

  /** The attributes and the exception after `__load_vars_from_settings`. */
  datatype Loaded = Loaded(attrs: AttrDict, raised: Option<string>)

  /** The `max_cache_age` step: the default "00:30:00" when unset, and a
      string turned into seconds; a malformed string raises ValueError after
      the attribute is set to it. */
  function WithCacheAge(d: AttrDict): Loaded {
    var age := if MaxCacheAge in d.values then d.values[MaxCacheAge] else Str(DefaultMaxCacheAge);
    CacheAgeSeconds(d.Put(MaxCacheAge, age), age)
  }

  /** `if isinstance(age, str): self.max_cache_age = seconds_from_string(age)` */
  function CacheAgeSeconds(d: AttrDict, age: Value): Loaded {
    if age.Str? then
      match Tools.SecondsFromString(age.s)
      case Ok(secs) => Loaded(d.Put(MaxCacheAge, Num(secs)), None)
      case Err(e) => Loaded(d, Some(e))
    else Loaded(d, None)
  }

  /** `__load_vars_from_settings(settings, project_specific)` as a value. */
  function LoadVars(d: AttrDict, get: string -> Value, projectSpecific: bool): Loaded {
    WithCacheAge(LoadNames(d, get, PrefixesFor(projectSpecific), Names))
  }

  /** "H:M:S" written with digit fields counts hours, minutes and seconds. */
  lemma SecondsOfFields(a: string, b: string, c: string, x: int, y: int, z: int)
    requires ':' !in a && ':' !in b && ':' !in c
    requires ParseInt(a) == Some(x) && ParseInt(b) == Some(y) && ParseInt(c) == Some(z)
    ensures Tools.SecondsFromString(a + ":" + b + ":" + c) == Ok(x * 3600 + y * 60 + z)
  {
    var parts := [a, b, c];
    Join3(a, b, c, ":");
    SplitJoinChar(parts, ':');
    Tools.SecondsFromFields(a, b, c, x, y, z);
  }

  lemma TwoDigits(s: string)
    requires |s| == 2 && IsDigits(s)
    ensures DigitsValue(s) == 10 * DigitValue(s[0]) + DigitValue(s[1])
  {
    var front := s[..1];
    assert front[..0] == [] && front[0] == s[0];
    assert DigitsValue(front) == DigitValue(s[0]);
  }

  lemma DefaultMaxCacheAgeFields()
    ensures DefaultMaxCacheAge == "00" + ":" + "30" + ":" + "00"
  {
    var time := DefaultMaxCacheAge;
    assert |time| == 8 && time[0] == '0' && time[1] == '0' && time[2] == ':' && time[3] == '3';
    assert time[4] == '0' && time[5] == ':' && time[6] == '0' && time[7] == '0';
  }

  lemma ParseThirty(t: string)
    requires t == "30"
    ensures ParseInt(t) == Some(30) && ':' !in t
  {
    assert t[0] == '3' && t[1] == '0';
    TwoDigits(t);
    ParseDigits(t);
  }

  lemma ParseZero(t: string)
    requires t == "00"
    ensures ParseInt(t) == Some(0) && ':' !in t
  {
    assert t[0] == '0' && t[1] == '0';
    TwoDigits(t);
    ParseDigits(t);
  }

  /** "00:30:00" is 1800 seconds. */
  lemma DefaultMaxCacheAgeSeconds()
    ensures Tools.SecondsFromString(DefaultMaxCacheAge) == Ok(1800)
  {
    DefaultMaxCacheAgeFields();
    ParseZero("00");
    ParseThirty("30");
    SecondsOfFields("00", "30", "00", 0, 30, 0);
  }

  /** Without a `max_cache_age` attribute the cache age becomes 1800 seconds. */
  lemma WithCacheAgeDefault(d: AttrDict)
    requires MaxCacheAge !in d.values
    ensures WithCacheAge(d) == Loaded(d.Put(MaxCacheAge, Num(1800)), None)
  {
    var age := Str(DefaultMaxCacheAge);
    var d1 := d.Put(MaxCacheAge, age);
    assert WithCacheAge(d) == CacheAgeSeconds(d1, age);
    DefaultMaxCacheAgeSeconds();
    CacheAgeSecondsOk(d1, age.s, 1800);
    PutPut(d, MaxCacheAge, age, Num(1800));
  }

  lemma CacheAgeSecondsOk(d: AttrDict, age: string, secs: int)
    requires Tools.SecondsFromString(age) == Ok(secs)
    ensures CacheAgeSeconds(d, Str(age)) == Loaded(d.Put(MaxCacheAge, Num(secs)), None)
  {
  }

  /** An integer cache age is kept as it is. */
  lemma WithCacheAgeNum(d: AttrDict)
    requires MaxCacheAge in d.values && d.values[MaxCacheAge].Num?
    ensures WithCacheAge(d) == Loaded(d, None)
  {
    assert d.values[MaxCacheAge := d.values[MaxCacheAge]] == d.values;
  }

  /** A cache age string is turned into seconds, or its ValueError raised. */
  lemma WithCacheAgeString(d: AttrDict)
    requires MaxCacheAge in d.values && d.values[MaxCacheAge].Str?
    ensures var r := WithCacheAge(d);
      match Tools.SecondsFromString(d.values[MaxCacheAge].s)
      case Ok(secs) => r.raised.None? && MaxCacheAge in r.attrs.values && r.attrs.values[MaxCacheAge] == Num(secs)
      case Err(e) => r == Loaded(d, Some(e))
  {
    assert d.values[MaxCacheAge := d.values[MaxCacheAge]] == d.values;
  }

  /** `need_reparse()`: the load is incomplete while no `progress_style`
      attribute exists. */
  predicate NeedsReparse(d: AttrDict) {
    ProgressStyle !in d.values
  }

  /** A load whose settings give `progress_style` completes the settings; one
      that does not leaves `need_reparse` as it was. */
  lemma LoadVarsNeedReparse(d: AttrDict, get: string -> Value, projectSpecific: bool)
    ensures var prefixes := PrefixesFor(projectSpecific);
      var r := LoadVars(d, get, projectSpecific).attrs;
      (Lookup(get, prefixes, ProgressStyle) != Null ==> !NeedsReparse(r)) &&
      (Lookup(get, prefixes, ProgressStyle) == Null ==> NeedsReparse(r) == NeedsReparse(d))
  {
    var prefixes := PrefixesFor(projectSpecific);
    assert ProgressStyle in Names;
    var l := LoadNames(d, get, prefixes, Names);
    LoadNamesValue(d, get, prefixes, Names, ProgressStyle);
    assert WithCacheAge(l).attrs.values.Keys == l.values.Keys + {MaxCacheAge};
  }

  // ---------------------------------------------------------------------------
  // is_valid

  /** The first attribute among `keys` whose value is None. */
  function FirstNull(d: AttrDict, keys: seq<string>): (r: Option<string>)
    ensures r.Some? ==> r.value in keys && r.value in d.values && d.values[r.value] == Null
    ensures r.None? <==> forall k :: 0 <= k < |keys| && keys[k] in d.values ==> d.values[keys[k]] != Null
  {
    if keys == [] then None
    else if keys[0] in d.values && d.values[keys[0]] == Null then Some(keys[0])
    else
      var r := FirstNull(d, keys[1..]);
      assert forall k :: 1 <= k < |keys| ==> keys[1..][k - 1] == keys[k];
      r
  }

  /** `getattr(self, name)`, raising AttributeError when there is none. */
  function Attr(d: AttrDict, name: string): (r: Result<Value>)
    ensures r.Ok? <==> name in d.values
    ensures r.Ok? ==> r.value == d.values[name]
  {
    if name in d.values then Ok(d.values[name]) else Err("AttributeError: " + name)
  }

  /** The verdict on one flags source: None when it is accepted, else the
      message. */
  function SourceCheck(source: Value): Result<Option<string>> {
    match PyIn(Str("file"), source)
    case Err(e) => Err(e)
    case Ok(has) =>
      if !has then Ok(Some("No 'file' setting in a flags source '" + PyStr(source) + "'"))
      else if !source.Object? then Err("TypeError: indices must be integers")
      else
        var file := ObjectGet(source.fields, "file").value;
        if InStrings(file, FlagSources) then Ok(None)
        else Ok(Some("flag source '" + PyStr(file) + "' is not one of " + StrListRepr(FlagSources)))
  }

  /** The flags sources in order: the first verdict that is not an
      acceptance. */
  function SourcesCheck(sources: seq<Value>): Result<Option<string>> {
    if sources == [] then Ok(None)
    else
      match SourceCheck(sources[0])
      case Err(e) => Err(e)
      case Ok(None) => SourcesCheck(sources[1..])
      case Ok(Some(msg)) => Ok(Some(msg))
  }

  /** The verdict for one language tag: present in the keys of `lang_flags`,
      in `valid_lang_syntaxes` and in `target_compilers`. */
  function LangCheck(d: AttrDict, tag: string): Result<Option<string>> {
    match Attr(d, LangFlags)
    case Err(e) => Err(e)
    case Ok(langFlags) =>
      if !langFlags.Object? then Err("AttributeError: keys")
      else if !HasKey(langFlags.fields, tag) then Ok(Some("lang '" + tag + "' is not in " + PyStr(langFlags)))
      else
        match Attr(d, ValidLangSyntaxes)
        case Err(e) => Err(e)
        case Ok(syntaxes) =>
          match PyIn(Str(tag), syntaxes)
          case Err(e) => Err(e)
          case Ok(inSyntaxes) =>
            if !inSyntaxes then Ok(Some("No '" + tag + "' in syntaxes '" + PyStr(syntaxes) + "'"))
            else
              match Attr(d, TargetCompilers)
              case Err(e) => Err(e)
              case Ok(compilers) =>
                match PyIn(Str(tag), compilers)
                case Err(e) => Err(e)
                case Ok(inCompilers) =>
                  if !inCompilers then Ok(Some("No '" + tag + "' in syntaxes '" + PyStr(compilers) + "'"))
                  else Ok(None)
  }

  /** The language tags in order: the first verdict that is not an acceptance. */
  function LangsCheck(d: AttrDict, tags: seq<string>): Result<Option<string>> {
    if tags == [] then Ok(None)
    else
      match LangCheck(d, tags[0])
      case Err(e) => Err(e)
      case Ok(None) => LangsCheck(d, tags[1..])
      case Ok(Some(msg)) => Ok(Some(msg))
  }

  /** The message for a progress style outside `PROGRESS_STYLES`. */
  function ProgressStyleMessage(progress: Value): string {
    "Progress style '" + PyStr(progress) + "' is not one of " + StrListRepr(ProgressStyles)
  }

  /** The message for a gutter style outside `GUTTER_STYLES`. */
  function GutterStyleMessage(gutter: Value): string {
    "Gutter style '" + PyStr(gutter) + "' is not one of " + StrListRepr(GutterStyles)
  }

  /** The checks after the None check: the two styles, the flags sources and
      the languages, in this order. */
  function StylesAndSources(d: AttrDict): Result<Option<string>> {
    match StylesCheck(d)
    case Err(e) => Err(e)
    case Ok(Some(msg)) => Ok(Some(msg))
    case Ok(None) =>
      match SourcesOf(d)
      case Err(e) => Err(e)
      case Ok(items) =>
        match SourcesCheck(items)
        case Err(e) => Err(e)
        case Ok(Some(msg)) => Ok(Some(msg))
        case Ok(None) => LangsCheck(d, Tools.LangTags)
  }

  /** The progress style check, then the gutter style check. */
  function StylesCheck(d: AttrDict): Result<Option<string>> {
    match Attr(d, ProgressStyle)
    case Err(e) => Err(e)
    case Ok(progress) =>
      if !InStrings(progress, ProgressStyles) then Ok(Some(ProgressStyleMessage(progress)))
      else
        match Attr(d, GutterStyle)
        case Err(e) => Err(e)
        case Ok(gutter) =>
          if !InStrings(gutter, GutterStyles) then Ok(Some(GutterStyleMessage(gutter)))
          else Ok(None)
  }

  /** `for source_dict in self.flags_sources`: what the loop runs over. */
  function SourcesOf(d: AttrDict): Result<seq<Value>> {
    match Attr(d, FlagsSourcesName)
    case Err(e) => Err(e)
    case Ok(sources) => PyIter(sources)
  }

  /** `is_valid()`: (False, message) for the first failing check, (True, "")
      when all pass, or the exception a missing or mistyped setting raises. */
  function Validity(d: AttrDict): Result<(bool, string)> {
    match FirstNull(d, d.keys)
    case Some(k) => Ok((false, "No value for setting '" + k + "' found!"))
    case None =>
      match StylesAndSources(d)
      case Err(e) => Err(e)
      case Ok(Some(msg)) => Ok((false, msg))
      case Ok(None) => Ok((true, ""))
  }

  /** A flags source that is accepted: an object with a 'file' entry naming
      one of the known sources. */
  predicate SourceAccepted(source: Value) {
    source.Object? && HasKey(source.fields, "file") &&
    InStrings(ObjectGet(source.fields, "file").value, FlagSources)
  }

  /** A language tag every language table lists. */
  predicate LangAccepted(d: AttrDict, tag: string) {
    LangFlags in d.values && d.values[LangFlags].Object? && HasKey(d.values[LangFlags].fields, tag) &&
    ValidLangSyntaxes in d.values && PyIn(Str(tag), d.values[ValidLangSyntaxes]) == Ok(true) &&
    TargetCompilers in d.values && PyIn(Str(tag), d.values[TargetCompilers]) == Ok(true)
  }

  /** Settings `is_valid` accepts, stated check by check. */
  predicate Acceptable(d: AttrDict) {
    (forall k :: 0 <= k < |d.keys| && d.keys[k] in d.values ==> d.values[d.keys[k]] != Null) &&
    ProgressStyle in d.values && InStrings(d.values[ProgressStyle], ProgressStyles) &&
    GutterStyle in d.values && InStrings(d.values[GutterStyle], GutterStyles) &&
    FlagsSourcesName in d.values && PyIter(d.values[FlagsSourcesName]).Ok? &&
    (forall i :: 0 <= i < |PyIter(d.values[FlagsSourcesName]).value| ==>
       SourceAccepted(PyIter(d.values[FlagsSourcesName]).value[i])) &&
    (forall t :: 0 <= t < |Tools.LangTags| ==> LangAccepted(d, Tools.LangTags[t]))
  }

  lemma {:induction false} SourcesCheckAccepts(sources: seq<Value>)
    ensures SourcesCheck(sources) == Ok(None) <==> forall i :: 0 <= i < |sources| ==> SourceAccepted(sources[i])
  {
    if sources != [] {
      SourcesCheckAccepts(sources[1..]);
      assert forall i :: 1 <= i < |sources| ==> sources[1..][i - 1] == sources[i];
      SourceCheckAccepts(sources[0]);
    }
  }

  lemma SourceCheckAccepts(source: Value)
    ensures SourceCheck(source) == Ok(None) <==> SourceAccepted(source)
  {
  }

  lemma {:induction false} LangsCheckAccepts(d: AttrDict, tags: seq<string>)
    ensures LangsCheck(d, tags) == Ok(None) <==> forall t :: 0 <= t < |tags| ==> LangAccepted(d, tags[t])
  {
    if tags != [] {
      LangsCheckAccepts(d, tags[1..]);
      assert forall t :: 1 <= t < |tags| ==> tags[1..][t - 1] == tags[t];
      LangCheckAccepts(d, tags[0]);
    }
  }

  lemma LangCheckAccepts(d: AttrDict, tag: string)
    ensures LangCheck(d, tag) == Ok(None) <==> LangAccepted(d, tag)
  {
  }

  /** `is_valid` gives (True, "") exactly for the settings that pass every
      check. */
  lemma ValidityAccepts(d: AttrDict)
    ensures Validity(d) == Ok((true, "")) <==> Acceptable(d)
  {
    if FlagsSourcesName in d.values && PyIter(d.values[FlagsSourcesName]).Ok? {
      SourcesCheckAccepts(PyIter(d.values[FlagsSourcesName]).value);
    }
    LangsCheckAccepts(d, Tools.LangTags);
  }

  /** Any attribute that is None makes the settings invalid, and the message
      names the first such attribute in the order the attributes were set. */
  lemma ValidityNull(d: AttrDict, k: nat)
    requires k < |d.keys| && d.keys[k] in d.values && d.values[d.keys[k]] == Null
    ensures Validity(d).Ok? && !Validity(d).value.0
    ensures exists j :: 0 <= j <= k && Validity(d).value.1 == "No value for setting '" + d.keys[j] + "' found!"
  {
    var r := FirstNull(d, d.keys);
    var j :| 0 <= j < |d.keys| && d.keys[j] == r.value;
    if j > k {
      assert FirstNull(d, d.keys[k..]) != None;
    }
    FirstNullIsFirst(d, d.keys, k);
  }

  lemma {:induction false} FirstNullIsFirst(d: AttrDict, keys: seq<string>, k: nat)
    requires k < |keys| && keys[k] in d.values && d.values[keys[k]] == Null
    ensures FirstNull(d, keys).Some?
    ensures exists j :: 0 <= j <= k && FirstNull(d, keys).value == keys[j]
  {
    if keys[0] in d.values && d.values[keys[0]] == Null {
      assert FirstNull(d, keys).value == keys[0];
    } else {
      assert k > 0;
      FirstNullIsFirst(d, keys[1..], k - 1);
      var j :| 0 <= j <= k - 1 && FirstNull(d, keys[1..]).value == keys[1..][j];
      assert FirstNull(d, keys).value == keys[j + 1];
    }
  }

  /** With no None attribute, a progress style outside its list is reported. */
  lemma ValidityProgressStyle(d: AttrDict)
    requires FirstNull(d, d.keys).None?
    requires ProgressStyle in d.values && !InStrings(d.values[ProgressStyle], ProgressStyles)
    ensures Validity(d) == Ok((false, ProgressStyleMessage(d.values[ProgressStyle])))
  {
  }

  /** With no None attribute and both styles in their lists, a flags source
      without 'file' or with an unknown file is reported. */
  lemma ValiditySource(d: AttrDict, i: nat)
    requires FirstNull(d, d.keys).None?
    requires ProgressStyle in d.values && InStrings(d.values[ProgressStyle], ProgressStyles)
    requires GutterStyle in d.values && InStrings(d.values[GutterStyle], GutterStyles)
    requires FlagsSourcesName in d.values && d.values[FlagsSourcesName].List?
    requires forall j :: 0 <= j < |d.values[FlagsSourcesName].items| ==> d.values[FlagsSourcesName].items[j].Object?
    requires i < |d.values[FlagsSourcesName].items| && !SourceAccepted(d.values[FlagsSourcesName].items[i])
    ensures Validity(d).Ok? && !Validity(d).value.0
  {
    var items := d.values[FlagsSourcesName].items;
    SourcesCheckRejects(items, i);
  }

  lemma {:induction false} SourcesCheckRejects(sources: seq<Value>, i: nat)
    requires forall j :: 0 <= j < |sources| ==> sources[j].Object?
    requires i < |sources| && !SourceAccepted(sources[i])
    ensures SourcesCheck(sources).Ok? && SourcesCheck(sources).value.Some?
  {
    if i > 0 && SourceCheck(sources[0]) == Ok(None) {
      assert sources[1..][i - 1] == sources[i];
      assert forall j :: 0 <= j < |sources| - 1 ==> sources[1..][j] == sources[j + 1];
      SourcesCheckRejects(sources[1..], i - 1);
    }
  }

  // ---------------------------------------------------------------------------
  // The settings object

  /** `SettingsStorage`: the attributes, and the exception its constructor
      raised, if any. */
  class SettingsStorage {
    var attrs: AttrDict
    /** The ValueError a malformed `max_cache_age` raised in `__init__`. */
    var failure: Option<string>

    constructor (get: string -> Value)
      ensures Loaded(attrs, failure) == LoadVars(InitialAttrs, get, false)
    {
      attrs := InitialAttrs;
      failure := None;
      new;
      var raised := LoadVarsFromSettings(get, false);
      failure := raised;
    }

    /** The loop over the names and the prefixes. */
    method LoadNamesLoop(get: string -> Value, prefixes: seq<string>, names: seq<string>)
      modifies this
      ensures attrs == LoadNames(old(attrs), get, prefixes, names)
      ensures failure == old(failure)
    {
      var i := 0;
      while i < |names|
        invariant 0 <= i <= |names|
        invariant attrs == LoadNames(old(attrs), get, prefixes, names[..i])
        invariant failure == old(failure)
      {
        var name := names[i];
        var val := Null;
        var j := 0;
        while j < |prefixes|
          invariant 0 <= j <= |prefixes|
          invariant val == Null
          invariant Lookup(get, prefixes, name) == Lookup(get, prefixes[j..], name)
        {
          assert prefixes[j..][0] == prefixes[j] && prefixes[j..][1..] == prefixes[j + 1..];
          val := get(prefixes[j] + name);
          if val != Null {
            break;
          }
          j := j + 1;
        }
        assert val == Lookup(get, prefixes, name);
        assert names[..i + 1][..i] == names[..i];
        if val != Null {
          attrs := attrs.Put(name, val);
        }
        i := i + 1;
      }
      assert names[..i] == names;
    }

    /** `__load_vars_from_settings(settings, project_specific)`; `get` is
        `settings.get`, None for a missing key. */
    method LoadVarsFromSettings(get: string -> Value, projectSpecific: bool) returns (raised: Option<string>)
      modifies this
      ensures Loaded(attrs, raised) == LoadVars(old(attrs), get, projectSpecific)
      ensures failure == old(failure)
    {
      var prefixes := if projectSpecific then Prefixes else [""];
      LoadNamesLoop(get, prefixes, Names);
      var age := if MaxCacheAge in attrs.values then attrs.values[MaxCacheAge] else Str(DefaultMaxCacheAge);
      attrs := attrs.Put(MaxCacheAge, age);
      raised := None;
      if age.Str? {
        var secs := Tools.SecondsFromString(age.s);
        if secs.Err? {
          return Some(secs.message);
        }
        attrs := attrs.Put(MaxCacheAge, Num(secs.value));
      }
    }

    /** `need_reparse()` */
    function NeedReparse(): (r: bool)
      reads this
      ensures r <==> ProgressStyle !in attrs.values
    {
      NeedsReparse(attrs)
    }

    /** `is_valid()`, the loops with their early returns. */
    method IsValid() returns (r: Result<(bool, string)>)
      ensures r == Validity(attrs)
    {
      var d := attrs;
      var i := 0;
      while i < |d.keys|
        invariant 0 <= i <= |d.keys|
        invariant FirstNull(d, d.keys) == FirstNull(d, d.keys[i..])
      {
        assert d.keys[i..][0] == d.keys[i] && d.keys[i..][1..] == d.keys[i + 1..];
        var key := d.keys[i];
        if key in d.values && d.values[key] == Null {
          return Ok((false, "No value for setting '" + key + "' found!"));
        }
        i := i + 1;
      }
      var rest := CheckRest(d);
      match rest
      case Err(e) => return Err(e);
      case Ok(Some(msg)) => return Ok((false, msg));
      case Ok(None) => return Ok((true, ""));
    }
  }

  /** The part of `is_valid` after the None check. */
  method CheckRest(d: AttrDict) returns (r: Result<Option<string>>)
    ensures r == StylesAndSources(d)
  {
    var styles := StylesCheck(d);
    if styles != Ok(None) {
      assert styles.Err? || styles.value.Some?;
      return styles;
    }
    var sources := SourcesOf(d);
    if sources.Err? {
      return Err(sources.message);
    }
    var verdict := CheckSources(sources.value);
    if verdict != Ok(None) {
      assert verdict.Err? || verdict.value.Some?;
      return verdict;
    }
    r := CheckLangs(d, Tools.LangTags);
  }

  /** The loop over the flags sources, returning at the first verdict that
      is not an acceptance. */
  method CheckSources(sources: seq<Value>) returns (r: Result<Option<string>>)
    ensures r == SourcesCheck(sources)
  {
    var i := 0;
    while i < |sources|
      invariant 0 <= i <= |sources|
      invariant SourcesCheck(sources) == SourcesCheck(sources[i..])
    {
      assert sources[i..][0] == sources[i] && sources[i..][1..] == sources[i + 1..];
      var verdict := SourceCheck(sources[i]);
      if verdict != Ok(None) {
        return verdict;
      }
      i := i + 1;
    }
    return Ok(None);
  }

  /** The loop over the language tags, returning at the first verdict that
      is not an acceptance. */
  method CheckLangs(d: AttrDict, tags: seq<string>) returns (r: Result<Option<string>>)
    ensures r == LangsCheck(d, tags)
  {
    var t := 0;
    while t < |tags|
      invariant 0 <= t <= |tags|
      invariant LangsCheck(d, tags) == LangsCheck(d, tags[t..])
    {
      assert tags[t..][0] == tags[t] && tags[t..][1..] == tags[t + 1..];
      var verdict := LangCheck(d, tags[t]);
      if verdict != Ok(None) {
        return verdict;
      }
      t := t + 1;
    }
    return Ok(None);
  }
}
