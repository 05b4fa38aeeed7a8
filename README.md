# EasyClangComplete core, modelled in Dafny

This project models the sequential core of EasyClangComplete, a Sublime Text
plugin that completes C and C++ code with clang. Most of that core builds,
cleans and deduplicates compiler flags. The model covers:

- the two-part `Flag` and its tokenizer (`flags.dfy`);
- the flag sources: compilation databases, `.clang_complete` files, generic
  include parsing and the upward folder search (`compilation_db.dfy`,
  `flags_source.dfy`, `flags_file.dfy`, `flags_manager.dfy`,
  `folder_search.dfy`);
- flag merging and the view-configuration cache (`view_config.dfy`);
- compiler built-ins (`compiler_builtins.dfy`);
- settings, validation and include-folder population
  (`settings_storage.dfy`, `plugin_settings.dfy`);
- turning libclang chunks and `clang -code-completion-at` lines into
  snippets (`libclang_complete.dfy`, `clang_bin_complete.dfy`);
- the trigger and position decisions (`tools.dfy`,
  `easy_clang_complete.dfy`);
- the older single-file plugin `ClangAutoComplete.py`
  (`clang_auto_complete.dfy`);
- the error tables and their HTML renderers (`error_vis.dfy`,
  `popup_error_vis.dfy`, `phantom_error_vis.dfy`);
- the small utilities: the mtime cache, canonical paths, AppleClang version
  mapping, doxygen cleanup, header listing, job overrides, quick-panel
  items, `StampedTu` and the singleton registry.

Each source file is one module. Code that changes objects in place becomes a
`class` whose methods state the whole new state. Loops become methods
proved against a specification function. Pure code becomes functions and
lemmas.

The editor, the compiler, the file system and the clock are parameters:
- A view is its text plus an abstract `word` function. Reading past the
  text gives "\0".
- A file system is a map from folder to entry names, or from path to text.
  Modification times are a function.
- Compiler output arrives as a sequence of lines.
- `fnmatch`, `glob` and `expand_all` are function parameters.
- The clock is a `now: real` parameter.
- Python's `set` iteration order for the separable prefixes is an `order`
  parameter. Every lemma about the tokenizer holds for every order.

Helper modules (`Wrappers`, `Strings`, `PyPath`, `Collections`,
`OrderedDicts`, `Regex`, `HtmlEscape`) model the parts of Python's standard
library the core uses:
- string methods;
- `posixpath`;
- `re.search`, restricted to the patterns the plugin uses;
- `cgi.escape`, with round-trip lemmas.

`UniqueList` follows the documented contract of `plugin/utils/__init__.py:5`
("uniqueness, but saves order"). The file that implements it is not part of
this model.

## Model

| member | source | states |
|---|---|---|
| ClangAutoCompletePlugin.ClangVersion | ClangAutoComplete.py:71-77 | nothing for an unset binary; otherwise the leftmost `\d.\d` of its name, and an error exactly when there is none |
| ClangAutoCompletePlugin.Defaulted | ClangAutoComplete.py:114-119 | an unset value becomes the default; a set one is kept |
| ClangAutoCompletePlugin.Settings.constructor | ClangAutoComplete.py:64-69 | a new Settings has read every setting and finished loading, with no bindings module before |
| ClangAutoCompletePlugin.Settings.LoadSettings | ClangAutoComplete.py:93-122 | every setting is read; a version lookup that raises stops the load, otherwise the bindings module and both defaults are applied |
| ClangAutoCompletePlugin.Settings.ReadSettings | ClangAutoComplete.py:96-107 | each field holds the setting of its own key |
| ClangAutoCompletePlugin.Settings.FinishLoad | ClangAutoComplete.py:112-119 | after the copying, a version lookup that raises leaves the bindings module, temp file and standard flag as they were; otherwise the bindings module is the version's and both defaults are applied |
| ClangAutoCompletePlugin.Settings.ApplyDefaults | ClangAutoComplete.py:114-119 | the temp file defaults to `auto_complete_tmp` in the temp folder and the standard flag to `-std=c++11`, only when unset |
| ClangAutoCompletePlugin.Settings.LoadCorrectClangVersion | ClangAutoComplete.py:71-84 | the bindings module changes only to the one listed for the version found; a failed lookup is recorded and changes nothing |
| ClangAutoCompletePlugin.Settings.LoadedDefaults | ClangAutoComplete.py:114-119 | after a load that raised nothing, the standard flag and temp file are set, to the given values or the defaults |
| ClangAutoCompletePlugin.Settings.IsValidAsWritten | ClangAutoComplete.py:124-149 | as written, never True; it raises exactly when all the checks before the standard flag pass |
| ClangAutoCompletePlugin.Settings.IsValid | ClangAutoComplete.py:124-149 | corrected: True exactly when the settings are loaded and none of them is None |
| ClangAutoCompletePlugin.Settings.IsValidAsWrittenRaises | ClangAutoComplete.py:147-149 | the code as written raises on exactly the settings the corrected check accepts |
| ClangAutoCompletePlugin.HasValidExtension | ClangAutoComplete.py:232-244 | a file accepted as C or C++ has a name ending in one of the listed extensions, so a name without a dot is never accepted |
| ClangAutoCompletePlugin.ExtensionSuffix | ClangAutoComplete.py:236 | the extension `splitext` finds is the end of the name |
| ClangAutoCompletePlugin.ValidSelectorInFocus | ClangAutoComplete.py:246-263 | True exactly when completing everything or some selector occurs in the text of its length before the cursor |
| ClangAutoCompletePlugin.SelectorBeforeMeans | ClangAutoComplete.py:261 | with the cursor far enough in, a selector is found exactly when it is the text right before the cursor |
| ClangAutoCompletePlugin.LastIndexOfAbsent | ClangAutoComplete.py:333 | `rfind` answers -1 exactly when the character is absent |
| ClangAutoCompletePlugin.RowColMeaning | ClangAutoComplete.py:332-333 | the row is one more than the line breaks before the cursor; the column counts from the last break, is at least 1, and is `pos + 1` exactly on the first row |
| ClangAutoCompletePlugin.FirstNonString | ClangAutoComplete.py:206-211 | the index where the rewriting loop stops: all earlier items are strings, the one there is not |
| ClangAutoCompletePlugin.RewrittenPointwise | ClangAutoComplete.py:206-211 | a list rewritten item by item up to an index is the list the loop leaves |
| ClangAutoCompletePlugin.AfterPopulateStrings | ClangAutoComplete.py:206-217 | from string folders, populating gives strings again, one or two entries more |
| ClangAutoCompletePlugin.PopulateTwiceGrows | ClangAutoComplete.py:185-217 | two calls change the settings twice: the list grows again and holds the file's folder a second time |
| ClangAutoCompletePlugin.Answer | ClangAutoComplete.py:328-380 | no answer without a selector before the cursor or without results; otherwise the completions built from the results by the chunk loop shared with the libclang completer |
| ClangAutoCompletePlugin.RewriteItems | ClangAutoComplete.py:206-211 | the loop rewrites the folders in place up to the first that is not a string |
| ClangAutoCompletePlugin.FirstNonStringAt | ClangAutoComplete.py:206-211 | the index where the loop stops is the first item that is not a string |
| ClangAutoCompletePlugin.ClangAutoComplete.constructor | ClangAutoComplete.py:166-169 | a new plugin holds freshly loaded settings |
| ClangAutoCompletePlugin.Populated | ClangAutoComplete.py:171-217 | populating succeeds exactly on a list of strings, and then leaves a list of strings that is also the answer; a value that is not a list is kept as it was |
| ClangAutoCompletePlugin.PopulatedAgain | ClangAutoComplete.py:206-217 | a list populated once is populated again without error, one or two entries longer |
| ClangAutoCompletePlugin.IncludeFlags | ClangAutoComplete.py:278-280 | succeeds exactly when every folder is a string, and then gives "-I" before each folder, in order |
| ClangAutoCompletePlugin.CompleterFlags | ClangAutoComplete.py:277-286 | an error populating the folders is passed on; otherwise the flags are the standard flag followed by "-I" before each folder, in order |
| ClangAutoCompletePlugin.ClangAutoComplete.PopulateIncludeDirs | ClangAutoComplete.py:171-217 | the settings' own list is rewritten and then extended by the file's folder and, when asked, its parent; a non-list or non-string stops it with an error; the answer and the new list are those of `Populated` |
| ClangAutoCompletePlugin.ClangAutoComplete.ReloadIfInvalid | ClangAutoComplete.py:317-319 | intended reading, with the corrected `is_valid` (as written it raises `NameError`, see Findings): valid settings are kept; otherwise the error of loading them again, the old settings kept when loading raises, and fresh settings read from the map when it does not |
| ClangAutoCompletePlugin.ClangAutoComplete.ReloadAndPopulate | ClangAutoComplete.py:317-322 | intended reading, with the corrected `is_valid`: a load that raises changes nothing; otherwise the include folders of the kept or reloaded settings are populated, with `Populated`'s answer and new list |
| ClangAutoCompletePlugin.ClangAutoComplete.InitCompleter | ClangAutoComplete.py:265-292 | intended reading, with the corrected `is_valid`: as above, and on success the flags for clang are the standard flag followed by "-I" before each populated folder |
| ClangAutoCompletePlugin.ClangAutoComplete.InitCompleterInQuery | ClangAutoComplete.py:339-340 | called right after a query populated the folders, nothing raises; valid settings get the same folders a second time, reloaded ones end up as they were |
| ClangAutoCompletePlugin.ClangAutoComplete.AnswerQuery | ClangAutoComplete.py:324-380 | the selectors are read only when not every position completes; no answer without a selector before the cursor; a view without a unit goes through `init_completer`, and without a bindings module the lookup of its unit raises; otherwise the completion answer at the cursor's row and column |
| ClangAutoCompletePlugin.ClangAutoComplete.OnQueryCompletions | ClangAutoComplete.py:305-380 | intended reading, with the corrected `is_valid` (as written, every query whose settings pass its first eight checks raises `NameError`): a reload that raises stops the query and changes nothing; otherwise every query populates the include folders, an error there or in the selectors is raised, and the answer, the row and column and the final folders are as the steps above say, including the second populating for a new view |
| CompilerBuiltIns.LastWithSpec | plugin/utils/compiler_builtins.py:108-111 | None exactly when no argument has the prefix; otherwise the text after the prefix of the last such argument |
| CompilerBuiltIns.GuessCompiler | plugin/utils/compiler_builtins.py:101-112 | the compiler is the first argument, if any; the standard is that of the last "-std=" argument after it |
| CompilerBuiltIns.Extension | plugin/utils/compiler_builtins.py:141 | the extension, without its dot, holds no '/' |
| CompilerBuiltIns.GuessLanguageExplicit | plugin/utils/compiler_builtins.py:130-136 | the argument after the first "-x" is the language whatever the file and compiler; a trailing "-x" gives none and nothing else is tried |
| CompilerBuiltIns.GuessLanguageImplicit | plugin/utils/compiler_builtins.py:137-150 | without "-x": a C++ extension gives "c++", an Objective-C one "objective-c"; with neither, a compiler name ending in "++" gives "c++", else no guess |
| CompilerBuiltIns.ExtensionOf | plugin/utils/compiler_builtins.py:141 | the extension of "stem.ext" is ext |
| CompilerBuiltIns.GuessLanguageByExtension | plugin/utils/compiler_builtins.py:137-145 | "x.cpp" and the other C++ extensions give "c++"; "x.m" and "x.mm" give "objective-c" |
| CompilerBuiltIns.DefineFlag | plugin/utils/compiler_builtins.py:172-179 | one line gives at most one flag, and it starts with "-D" |
| CompilerBuiltIns.DefineWithValue | plugin/utils/compiler_builtins.py:173-175 | "#define N V" becomes "-DN=V" |
| CompilerBuiltIns.DefineWithoutValue | plugin/utils/compiler_builtins.py:176-179 | "#define N" becomes "-DN" |
| CompilerBuiltIns.NoKeywordAfterStart | plugin/utils/compiler_builtins.py:173-177 | "#define " followed by a word holds no second "#define " |
| CompilerBuiltIns.KeywordHashFirst | plugin/utils/compiler_builtins.py:173 | '#' occurs in "#define " only at its start |
| CompilerBuiltIns.NoDefine | plugin/utils/compiler_builtins.py:172-179 | a line without "#define " gives no flag |
| CompilerBuiltIns.DefinesFromOutput | plugin/utils/compiler_builtins.py:162-180 | the loop over the output lines returns `ParseDefines` |
| CompilerBuiltIns.IncludePathsAreFlags | plugin/utils/compiler_builtins.py:207-210 | every include path flag starts with "-I" |
| CompilerBuiltIns.IncludePathsSkipPlain | plugin/utils/compiler_builtins.py:197-207 | lines without markers before a start marker give nothing |
| CompilerBuiltIns.PlainStep | plugin/utils/compiler_builtins.py:207-210 | a line without markers gives its flag while picking, and nothing otherwise |
| CompilerBuiltIns.PrependThrough | plugin/utils/compiler_builtins.py:207-210 | regrouping of the collected prefix |
| CompilerBuiltIns.IncludePathsBody | plugin/utils/compiler_builtins.py:207-210 | after a start marker, lines without markers each give "-I" and the line without leading whitespace |
| CompilerBuiltIns.IncludePathsBlock | plugin/utils/compiler_builtins.py:197-210 | the flags are exactly those of the lines between the start marker and the end marker; nothing after the end marker counts |
| CompilerBuiltIns.IncludePathsEndFirst | plugin/utils/compiler_builtins.py:205-206 | an end marker before any start marker leaves no include path |
| CompilerBuiltIns.IncludePathsFromOutput | plugin/utils/compiler_builtins.py:187-211 | the loop with its `continue`s and `break` returns `ParseIncludePaths` |
| CompilerBuiltIns.QueryArgs | plugin/utils/compiler_builtins.py:164-193 | both queries start with the compiler |
| CompilerBuiltIns.BuiltInsCache.constructor | plugin/utils/compiler_builtins.py:18 | the memo starts empty |
| CompilerBuiltIns.MemoAfter | plugin/utils/compiler_builtins.py:53-61 | the memo only grows: every recorded configuration keeps its answer, and the configuration asked for is recorded afterwards |
| CompilerBuiltIns.BuiltIns.constructor | plugin/utils/compiler_builtins.py:20-64 | without a compiler there are no flags and the memo is unchanged; otherwise the compiler is queried only for a configuration not in the memo, whose answer is then recorded; the flags and the new memo are `BuiltInFlags` and `MemoAfter` of the memo before |
| CompilerBuiltIns.BuiltIns.Flags | plugin/utils/compiler_builtins.py:76-84 | the defines, then the include paths |
| ClangBinComplete.LineEnd | plugin/clang_bin_complete.py:45 | a `.*` group runs up to the next newline or the end of the text |
| ClangBinComplete.LastSep | plugin/clang_bin_complete.py:45 | the greedy name group stops at the last `\s:\s` in reach, and there is none after it |
| ClangBinComplete.LastSepIs | plugin/clang_bin_complete.py:45 | a separator with none after it is the one the name stops at |
| ClangBinComplete.LineMatchAtSound | plugin/clang_bin_complete.py:45 | a match starts with the `COMPLETION:` tag and whitespace, and its name and content groups lie around the last separator of the line |
| ClangBinComplete.ScanLineSound | plugin/clang_bin_complete.py:45-268 | the search finds the match at the first index where one starts |
| ClangBinComplete.ScanSimpleLine | plugin/clang_bin_complete.py:45-275 | `COMPLETION: name : content` gives exactly that name and content when neither has a newline and the content has no ':' |
| ClangBinComplete.Delimited | plugin/clang_bin_complete.py:50-63 | a delimited match spans at least five characters and stays inside the text |
| ClangBinComplete.DelimitedShape | plugin/clang_bin_complete.py:50-65 | a delimited match is the opening bracket, '#', a non-empty run of group characters, '#' and the closing bracket |
| ClangBinComplete.TokenAt | plugin/clang_bin_complete.py:61-63 | a `<#...#>` or `[#...#]` match spans at least five characters and stays inside the text |
| ClangBinComplete.TokenizedCount | plugin/clang_bin_complete.py:249-278 | the counter goes up once for every `<#...#>` and every `[#...#]` match |
| ClangBinComplete.PlainContent | plugin/clang_bin_complete.py:276-283 | content without a '#' passes all three substitutions unchanged and leaves the counter alone |
| ClangBinComplete.PlainFrom | plugin/clang_bin_complete.py:276-283 | from any index, text without '#' is copied through by every substitution |
| ClangBinComplete.ParamToken | plugin/clang_bin_complete.py:249-261 | `<#p#>` becomes `${n+1:p}` in the contents, with the counter one higher, and `p` in the hint |
| ClangBinComplete.ParamTokenLatin1 | plugin/clang_bin_complete.py:50-53 | UTF-8 "ò" decoded byte by byte is "Ã²", whose characters `\w` accepts, so `<#Ã²#>` becomes `${1:Ã²}` |
| ClangBinComplete.TypeToken | plugin/clang_bin_complete.py:249-263 | `[#t#]` disappears from the contents but still raises the counter, and becomes `t ` in the hint |
| ClangBinComplete.OptsGroup | plugin/clang_bin_complete.py:65-283 | `{#o#}` is removed |
| ClangBinComplete.DelimitedExact | plugin/clang_bin_complete.py:50-63 | a text that is exactly a bracketed group matches as a whole, with that group |
| ClangBinComplete.Parser.constructor | plugin/clang_bin_complete.py:246-247 | the counter starts at 0 |
| ClangBinComplete.Parser.SubTokenize | plugin/clang_bin_complete.py:249-278 | the scan gives the tokenized text, and the counter ends where the substitution leaves it |
| ClangBinComplete.TokenizeStep | plugin/clang_bin_complete.py:249-278 | one step of the scan moves forward and keeps the text-and-counter result the same |
| ClangBinComplete.TokenizedOntoFrom | plugin/clang_bin_complete.py:276-278 | carrying the output along gives the output followed by the rewrite of the rest |
| ClangBinComplete.ProcessCompletions | plugin/clang_bin_complete.py:237-285 | the loop gives exactly the completions of the lines, with one counter shared by all lines |
| ClangBinComplete.BinCompletionsStep | plugin/clang_bin_complete.py:267-284 | a matching line appends its entry and hands its counter to the rest |
| ClangBinComplete.BinCompletionsAppend | plugin/clang_bin_complete.py:246-284 | the counter is not reset between lines: later lines number their placeholders from where earlier lines left off |
| ClangBinComplete.OneLine | plugin/clang_bin_complete.py:267-284 | a line that does not match gives nothing and leaves the counter; one that does gives one entry and raises the counter by its content's matches |
| ClangBinComplete.FindVersionLeftmost | plugin/clang_bin_complete.py:95-97 | a version is found exactly when `\d.\d` matches somewhere, and it is the leftmost match; with no match `group()` fails |
| ClangBinComplete.CompleteAtJoin | plugin/clang_bin_complete.py:175-177 | the position argument is the flag and file, the row and the column followed by the file, joined by ':' |
| ClangBinComplete.NoColon | plugin/clang_bin_complete.py:175-177 | a file without ':' and decimal numbers put no extra ':' into the position argument |
| ClangBinComplete.CompleteAtPosition | plugin/clang_bin_complete.py:166-177 | for a file name without ':' or ' ', the 1-based row and column read back from the position argument |
| ClangBinComplete.Completer.constructor | plugin/clang_bin_complete.py:67-99 | without a binary nothing is recorded; when the version query fails only the binary is; otherwise the version is the leftmost `\d.\d` of the output, and an output without one raises |
| ClangBinComplete.Completer.HasCompleter | plugin/clang_bin_complete.py:108-111 | True exactly when there are flags, whatever the view |
| ClangBinComplete.Completer.RemoveTu | plugin/clang_bin_complete.py:105-106 | the flags are emptied for every view, and nothing else changes |
| ClangBinComplete.Completer.InitCompleter | plugin/clang_bin_complete.py:113-152 | the std flag is kept, and the flags are the include flags followed by the found `.clang_complete` flags when searching |
| ClangBinComplete.Completer.Complete | plugin/clang_bin_complete.py:154-206 | the command holds the binary, init flags, std flag, 1-based position and flags; the completions are those of the output's lines and are marked ready |
| Strings.SplitLinesUnicodeBreaks | plugin/clang_bin_complete.py:198 | `str.splitlines` also ends a line at U+0085, U+2028 and U+2029 |
| ClangBinComplete.InitHasCompleter | plugin/clang_bin_complete.py:108-150 | after init there is a completer exactly when there is an include or the `.clang_complete` gave a flag |
| CompilationDatabase.FilterBadArguments | plugin/flags_sources/compilation_db.py:181-213 | the loop returns exactly `Filtered` of the argument list |
| CompilationDatabase.FilteredFromDropsCompileAndOutput | plugin/flags_sources/compilation_db.py:205-211 | neither "-c" nor "-o" survives any suffix of the scan |
| CompilationDatabase.SubsequenceDropHead | plugin/flags_sources/compilation_db.py:192-212 | a subsequence of the tail is a subsequence of the list |
| CompilationDatabase.SubsequenceKeepHead | plugin/flags_sources/compilation_db.py:212 | keeping the head of both lists keeps the subsequence relation |
| CompilationDatabase.FilteredFromSubsequence | plugin/flags_sources/compilation_db.py:192-212 | the scan from position i keeps a subsequence of the arguments before the last |
| CompilationDatabase.FilteredSubsequence | plugin/flags_sources/compilation_db.py:197-204 | fewer than two arguments give nothing; otherwise the result is a subsequence of the arguments without the program and the file |
| CompilationDatabase.FilteredDropsCompileAndOutput | plugin/flags_sources/compilation_db.py:205-211 | no "-c" and no "-o" in the result |
| CompilationDatabase.FilteredFromPlain | plugin/flags_sources/compilation_db.py:192-212 | with no "-c" or "-o" in the middle, the scan keeps every middle argument |
| CompilationDatabase.FilteredPlain | plugin/flags_sources/compilation_db.py:192-212 | with no "-c" or "-o", the result is every argument but the first and the last |
| CompilationDatabase.FilteredOutputPair | plugin/flags_sources/compilation_db.py:208-211 | "-o" drops the argument that follows it |
| CompilationDatabase.FilteredCMakeExample | plugin/flags_sources/compilation_db.py:181-213 | a CMake-generated command keeps only its include flag |
| CompilationDatabase.ExpandedTemplatesPlain | plugin/flags_sources/compilation_db.py:256-261 | templates without a trailing separator are kept as they are |
| CompilationDatabase.GetTemplates | plugin/flags_sources/compilation_db.py:247-268 | the expanded user templates in order, then each default template not already present; both defaults are always present |
| CompilationDatabase.GetTemplatesOf | plugin/flags_sources/compilation_db.py:263-268 | both default templates are always in the list |
| CompilationDatabase.FormatNoBraces | plugin/flags_sources/compilation_db.py:233-237 | a template without braces formats to itself |
| CompilationDatabase.StampTemplateFormat | plugin/flags_sources/compilation_db.py:233-264 | "{stamp}.*" formats to the stamp followed by ".*" |
| CompilationDatabase.AnyTemplateFormat | plugin/flags_sources/compilation_db.py:233-264 | "*.*" formats to itself |
| CompilationDatabase.FirstMatchingKey | plugin/flags_sources/compilation_db.py:242-245 | None exactly when no key matches; otherwise the first matching key |
| CompilationDatabase.FirstOfPatterns | plugin/flags_sources/compilation_db.py:228-245 | a result is always a key of the database |
| CompilationDatabase.FirstOfPatternsNone | plugin/flags_sources/compilation_db.py:228-245 | None exactly when no pattern matches any key |
| CompilationDatabase.FindRelated | plugin/flags_sources/compilation_db.py:215-245 | a related source is always a key of the database |
| CompilationDatabase.FindRelatedNone | plugin/flags_sources/compilation_db.py:224-245 | no related source exactly when no template's pattern, in the file's folder, matches any key |
| CompilationDatabase.FirstMatch | plugin/flags_sources/compilation_db.py:242-245 | the inner loop returns `FirstMatchingKey` |
| CompilationDatabase.FindRelatedSources | plugin/flags_sources/compilation_db.py:215-245 | no file gives None; otherwise the loops return `FindRelated` |
| CompilationDatabase.WithBuiltIns | plugin/flags_sources/compilation_db.py:160-165 | the built-ins go just before the last argument, which stays last; all other arguments keep their place |
| CompilationDatabase.StoredSnoc | plugin/flags_sources/compilation_db.py:172 | storing one more pair is one more `parsed_db[key] = flags` |
| CompilationDatabase.StoredValid | plugin/flags_sources/compilation_db.py:130-172 | the stored dictionary is well formed and its keys are exactly the stored keys |
| CompilationDatabase.StoredLast | plugin/flags_sources/compilation_db.py:172 | the last pair stored under a key gives that key its value |
| CompilationDatabase.ParsedDatabaseNone | plugin/flags_sources/compilation_db.py:127-149 | no database exactly when the list is empty or some entry has neither "command" nor "arguments" |
| CompilationDatabase.ParsedDatabaseAll | plugin/flags_sources/compilation_db.py:131-176 | "all" holds the flags of every entry, each once, in first-occurrence order |
| CompilationDatabase.ParsedDatabaseEntry | plugin/flags_sources/compilation_db.py:132-172 | the last entry for a file gives that file its flags |
| CompilationDatabase.ParsedDatabaseKeys | plugin/flags_sources/compilation_db.py:132-172 | every key other than "all" comes from an entry, and every entry's file is a key |
| CompilationDatabase.ParseEntry | plugin/flags_sources/compilation_db.py:133-172 | one pass of the entry loop gives the entry's canonical key and its parsed flags |
| CompilationDatabase.ParseDatabase | plugin/flags_sources/compilation_db.py:111-178 | the loop returns exactly `ParsedDatabase` |
| CompilationDatabase.AllUsableSnoc | plugin/flags_sources/compilation_db.py:141-149 | one more usable entry keeps the prefix usable |
| CompilationDatabase.LoadDbCached | plugin/flags_sources/compilation_db.py:72-80 | a database parsed before whose time is unchanged is reused, and nothing changes |
| CompilationDatabase.LoadDbChanged | plugin/flags_sources/compilation_db.py:76-91 | a database parsed before whose time changed is parsed again and its time recorded |
| CompilationDatabase.RelatedEntry | plugin/flags_sources/compilation_db.py:96-101 | a related source is used only for a file the database does not list, and only when the database lists the related source |
| CompilationDatabase.GetFlagsAsWritten | plugin/flags_sources/compilation_db.py:57-58 | as written, every call raises (`_update_search_scope` is defined neither in `CompilationDb` nor in `FlagsSource`) and changes no cache |
| CompilationDatabase.GetFlagsAsWrittenRaises | plugin/flags_sources/compilation_db.py:58 | on every input the code as written raises with the caches unchanged; without a database file the intended reading gives None instead |
| CompilationDatabase.GetFlagsNoDatabase | plugin/flags_sources/compilation_db.py:66-68 | intended reading, with `_update_search_scope` defined (see Findings): no database file gives None and changes nothing |
| CompilationDatabase.GetFlagsCachedNotReparsed | plugin/flags_sources/compilation_db.py:72-80 | intended reading, with `_update_search_scope` defined (see Findings): an unchanged cached database is not parsed again: the answer does not depend on what parsing would give |
| CompilationDatabase.AnswerIgnoresParsed | plugin/flags_sources/compilation_db.py:93-109 | intended reading, with `_update_search_scope` defined (see Findings): the answer from a loaded database, and the state it leaves, do not depend on what parsing the database file would give |
| CompilationDatabase.GetFlagsChangedUnparsable | plugin/flags_sources/compilation_db.py:81-95 | intended reading, with `_update_search_scope` defined (see Findings): a changed database that fails to parse gives None, and the cache remembers the failure |
| CompilationDatabase.GetFlagsOwnEntry | plugin/flags_sources/compilation_db.py:104-107 | intended reading, with `_update_search_scope` defined (see Findings): a listed file gets its own flags, and the cache maps the file to the database |
| CompilationDatabase.GetFlagsAllEntry | plugin/flags_sources/compilation_db.py:104-109 | intended reading, with `_update_search_scope` defined (see Findings): an unlisted file without a related source gets the "all" entry, and nothing changes |
| CompilationDatabase.GetFlagsRelated | plugin/flags_sources/compilation_db.py:96-107 | intended reading, with `_update_search_scope` defined (see Findings): an unlisted file with a related source gets that source's flags; the cached database then lists the file, and the cache maps the related source to the database |
| CompilationDatabase.CompilationDb.constructor | plugin/flags_sources/compilation_db.py:28-42 | stores the prefixes, the templates, the built-ins switch and the shared caches |
| CompilationDatabase.CompilationDb.Load | plugin/flags_sources/compilation_db.py:64-91 | the loading half of `get_flags` has exactly the outcome and the new state `LoadDb` gives |
| CompilationDatabase.CompilationDb.Related | plugin/flags_sources/compilation_db.py:96-99 | returns `RelatedEntry` |
| CompilationDatabase.CompilationDb.AnswerFrom | plugin/flags_sources/compilation_db.py:96-109 | the answer and the new state are `Answer` |
| CompilationDatabase.CompilationDb.GetFlags | plugin/flags_sources/compilation_db.py:44-109 | intended reading, with `_update_search_scope` defined (see Findings): the answer and the new state are `GetFlagsModel` of the old state |
| EasyClangCompletePlugin.HasValidExtension | EasyClangComplete.py:89-103 | a file accepted as C or C++ has a name ending in one of the listed extensions, ".cc" included, so a name without a dot is never accepted |
| EasyClangCompletePlugin.ExtensionsAgainstOlderPlugin | EasyClangComplete.py:87-103 | every file the older plugin accepts is accepted, and exactly the ".cc" files in addition |
| EasyClangCompletePlugin.NeedsAutocompletion | EasyClangComplete.py:105-139 | True exactly when completing everything, or "->"/"::" is complete, the word on the left is no number and some trigger holds the character before the cursor |
| EasyClangCompletePlugin.CharAtInside | EasyClangComplete.py:120 | a character read that is not the out-of-range marker lies inside the text |
| EasyClangCompletePlugin.NeededAfterArrowOrScope | EasyClangComplete.py:122-129 | completion after '>' needs "->" right before the cursor, after ':' needs "::" |
| EasyClangCompletePlugin.NeededAfterDot | EasyClangComplete.py:131-138 | after a '.' trigger, completion is needed exactly when the word on the left is no number |
| EasyClangCompletePlugin.OnQueryCompletions | EasyClangComplete.py:226-265 | scratch views and other files get no answer; ready completions are answered once and the flag cleared; otherwise an empty list, and a completion run starts exactly when completion is needed at the first location |
| EasyClangCompletePlugin.QueryTwice | EasyClangComplete.py:245-253 | after a background run, the first query answers the ready completions and the second an empty list |
| ErrorVis.AddToRow | plugin/error_vis.py:71-74 | the error is appended to its row's list, which is created when the row had none |
| ErrorVis.AddToRowValid | plugin/error_vis.py:71-74 | adding keeps the table well formed, and a new row goes last in the key order |
| ErrorVis.WithoutRow | plugin/error_vis.py:173 | the remaining keys are the old ones except that row |
| ErrorVis.WithoutRowDistinct | plugin/error_vis.py:173 | removing a key keeps the keys distinct |
| ErrorVis.RemoveRow | plugin/error_vis.py:173 | only that row's entry is deleted |
| ErrorVis.RemoveRowValid | plugin/error_vis.py:173 | deleting a row keeps the table well formed |
| ErrorVis.CollectedSnoc | plugin/error_vis.py:51-52 | the loop adds the errors one after the other |
| ErrorVis.AddedErrorRow | plugin/error_vis.py:58-74 | one add_error leaves the table well formed and appends to a row exactly the new error when it is of the view's file and on that row |
| ErrorVis.CollectedRow | plugin/error_vis.py:51-74 | after adding errors, a row holds its earlier errors followed by the new errors of the view's file on that row, in arrival order, and is present exactly when it was before or one of them is on it |
| ErrorVis.CollectedRowStep | plugin/error_vis.py:51-52 | the table and the row's errors both take the last error after the others |
| ErrorVis.GeneratedRows | plugin/error_vis.py:42-52 | a freshly generated table holds on each row exactly the errors of the view's file on that row, in arrival order |
| ErrorVis.RowErrorsSameFile | plugin/error_vis.py:66-74 | an error of another file, or on another row, never reaches a row |
| ErrorVis.RegionsCountUpTo | plugin/error_vis.py:267-271 | the region list of the first n rows has one region per error in them |
| ErrorVis.RegionsOfErrors | plugin/error_vis.py:257-271 | the region list has one region per stored error, and holds exactly the regions of the stored errors |
| ErrorVis.RegionOfSomeError | plugin/error_vis.py:267-271 | every listed region is the region of a stored error |
| ErrorVis.ErrorRegionListed | plugin/error_vis.py:267-271 | every stored error's region is listed |
| ErrorVis.AsRegionList | plugin/error_vis.py:257-271 | the nested loop lists exactly the regions, row by row in key order |
| ErrorVis.EscapeErrorChars | plugin/error_vis.py:191-194 | no space, '<' or '>' is left, and every other character not brought in by the entities occurs in the escaped text exactly when it occurs in the error |
| ErrorVis.AsHtml | plugin/error_vis.py:182-198 | the loop gives one `<p><tt>` paragraph per escaped error, in order |
| ErrorVis.AsPhantomHtml | plugin/error_vis.py:200-255 | the escaped errors, separated by "<br>", inside the phantom markup with the stylesheet and the hide link |
| ErrorVis.PhantomErrors | plugin/error_vis.py:240-249 | the loop with its `first` flag joins the escaped errors with "<br>" |
| ErrorVis.Phantoms | plugin/error_vis.py:88-98 | one phantom per row with errors, in key order, below that row and showing that row's errors |
| ErrorVis.MapSeqAll | plugin/error_vis.py:90-98 | each row gives its phantom |
| ErrorVis.BuildPhantoms | plugin/error_vis.py:88-98 | the loop builds exactly the phantoms |
| ErrorVis.CompileErrors.constructor | plugin/error_vis.py:23 | no view has errors, so every table is well formed |
| ErrorVis.CompileErrors.AddError | plugin/error_vis.py:58-74 | an error of another file changes nothing; otherwise the error, with its word's region, is appended to its row of the view; well-formed tables stay well formed |
| ErrorVis.CompileErrors.AddNextError | plugin/error_vis.py:51-52 | one turn of the generate loop adds the next error |
| ErrorVis.CompileErrors.Generate | plugin/error_vis.py:26-56 | nothing changes for buffer 0; otherwise the view's table is replaced by one holding only the new errors of its file, and no other view changes; well-formed tables stay well formed |
| ErrorVis.CompileErrors.ShowRegions | plugin/error_vis.py:76-115 | nothing for a view without a table; otherwise its regions and, when asked, its phantoms |
| ErrorVis.CompileErrors.PopupIfNeeded | plugin/error_vis.py:129-144 | a popup is shown exactly when the view has a table and the row has errors |
| ErrorVis.CompileErrors.Clear | plugin/error_vis.py:146-157 | the view's table is emptied but kept; an unknown view changes nothing; well-formed tables stay well formed |
| ErrorVis.CompileErrors.RemoveRegion | plugin/error_vis.py:159-173 | only that row of that view goes; an unknown view or row changes nothing; well-formed tables stay well formed |
| ErrorVis.ClearedTables | plugin/error_vis.py:136-173 | after clear no row has a popup; after remove_region that row has none and every other row keeps its errors |
| FlagsFiles.FindClangComplete | plugin/completion/flags_file.py:34-47 | the search loop finds the first folder, from the start folder upwards, that lists `.clang_complete`, never going past the stop folder or the root; an empty stop path lets it reach the root |
| FlagsFiles.FindClangCompleteNearest | plugin/completion/flags_file.py:34-47 | a found folder lies between the start and stop folders and holds the file, and no nearer folder does; when nothing is found, no folder between them holds one; with the empty stop path, every ancestor up to the root counts as between |
| FlagsFiles.FindClangCompleteEmptyStop | plugin/completion/flags_file.py:34-47 | with the empty stop path (`dirname("") == ""`) a `.clang_complete` in the root is always found; with the root as stop folder the root is never searched |
| FlagsFiles.LineFlag | plugin/completion/flags_file.py:100-110 | a line gives at most one flag |
| FlagsFiles.ParsedLinesCount | plugin/completion/flags_file.py:100-110 | there is one flag per "-D" or "-I" line and none for any other line |
| FlagsFiles.ParsedLinesAt | plugin/completion/flags_file.py:100-110 | flags keep the order of their lines: the k-th kept line gives the k-th flag |
| FlagsFiles.ParsedLinesOrigin | plugin/completion/flags_file.py:101-110 | every flag is a "-D" line kept verbatim (newline included) or the include flag of an "-I" line, its path normalised when absolute and joined to the folder otherwise |
| FlagsFiles.ParseLines | plugin/completion/flags_file.py:93-110 | the loop returns exactly the flags of the lines, in order |
| FlagsFiles.FileFlags | plugin/completion/flags_file.py:89-91 | with no file there are no flags |
| FlagsFiles.ParseFlags | plugin/completion/flags_file.py:88-112 | no file gives []; otherwise the flags of the file's lines, with the file's folder and the mask chosen by separate_includes |
| FlagsFiles.Modified | plugin/completion/flags_file.py:49-64 | with no file the answer is False and nothing changes; the answer is True exactly when there is a file and its time is strictly newer, and then that time is recorded |
| FlagsFiles.ModifiedTwice | plugin/completion/flags_file.py:59-64 | a second check at the same time answers False, and the recorded time never decreases |
| FlagsFiles.FlagsFile.constructor | plugin/completion/flags_file.py:24-47 | the file is the one the upward search finds, with its modification time recorded, or None and time 0 |
| FlagsFiles.FlagsFile.WasModified | plugin/completion/flags_file.py:49-64 | answers and records as the modification check does; the file and the cached flags do not change |
| FlagsFiles.FlagsFile.GetFlags | plugin/completion/flags_file.py:66-85 | the file is reparsed exactly when there are no cached flags or the file was modified; otherwise the cached flags come back; the modification check runs only when flags are cached |
| Flags.Flag.AsList | plugin/utils/flag.py:41-45 | [prefix, body] when the prefix is non-empty, else [body] |
| Flags.NewFlag | plugin/utils/flag.py:19-29 | a flag keeps its prefix and body and has the default separator ' ' |
| Flags.ToStringIsJoinedList | plugin/utils/flag.py:41-51 | `str(flag)` is the list form joined by the separator: prefix+separator+body, or the body alone |
| Flags.HashKeyIsConcatenatedList | plugin/utils/flag.py:59-63 | the hashed string is prefix+body, or the body alone |
| Flags.SameConsistent | plugin/utils/flag.py:59-67 | equality compares prefix and body only, so equal flags hash alike, and the separator is ignored |
| Flags.PathPrefixesAsWrittenLosesTwo | plugin/utils/flag.py:152-172 | as written, "-fprebuilt-module-path" and "-fprofile-use" are one joined element and neither is a path prefix |
| Flags.SeparablePrefixesStripped | plugin/utils/flag.py:175-217 | every separable prefix is already stripped and does not start with "#" |
| Flags.SeparableShape | plugin/utils/flag.py:175-217 | every separable prefix has at least two characters and starts with '-' or '/' |
| Flags.SeparablePrefixesAllStripped | plugin/utils/flag.py:152-217 | all separable prefixes are stripped, and "" is not a path prefix |
| Flags.EmptyNotPathPrefix | plugin/utils/flag.py:152-172 | an empty prefix is never a path prefix |
| Flags.FirstPrefix | plugin/utils/flag.py:112-116 | the index of the first prefix, in loop order, that the chunk starts with; None when there is none |
| Flags.FromUnparsedSpec | plugin/utils/flag.py:109-120 | for every iteration order of the set: either prefix '' and body = stripped chunk, or a separable prefix the chunk starts with and the rest as body, or the whole chunk when nothing follows; with no matching prefix only the first |
| Flags.FromUnparsedFound | plugin/utils/flag.py:113-115 | prefix + body rebuilds the stripped chunk |
| Flags.FromUnparsedWholeChunk | plugin/utils/flag.py:113-119 | a chunk equal to its matched prefix gets the whole chunk as body |
| Flags.WithPart | plugin/utils/flag.py:122-132 | `with_body`/`with_prefix` store the stripped text |
| Flags.PrefixedAll | plugin/utils/flag.py:137-141 | one flag per expanded body, all with the same prefix, in order |
| Flags.ExpansionOver | plugin/utils/flag.py:134-143 | a path prefix gives one flag per expanded body; any other prefix gives exactly one flag with the same prefix and body |
| Flags.ProfileUseNotExpandedAsWritten | plugin/utils/flag.py:134-164 | as written, "-fprofile-use" is never expanded; as intended, it is |
| Flags.SeparablePathPrefixesAgree | plugin/utils/flag.py:152-217 | the written and intended path sets agree on every separable prefix |
| Flags.Builder.constructor | plugin/utils/flag.py:104-107 | a new builder has empty prefix and body |
| Flags.Builder.FromUnparsedString | plugin/utils/flag.py:109-120 | the builder's fields become `FromUnparsed` of the old fields and the chunk |
| Flags.Builder.WithBody | plugin/utils/flag.py:122-125 | stores the stripped body and keeps the prefix |
| Flags.Builder.WithPrefix | plugin/utils/flag.py:127-132 | stores the stripped prefix and keeps the body |
| Flags.Builder.BuildWithExpansion | plugin/utils/flag.py:134-143 | intended reading, with the corrected `PathPrefixes` (see Findings): the loop builds exactly `Expansion` of the builder's prefix and body |
| Flags.FindPrefix | plugin/utils/flag.py:112-116 | the `for ... break` loop stops at `FirstPrefix` |
| Flags.FirstPrefixAt | plugin/utils/flag.py:112-116 | an index whose prefix matches, with none before it, is the first match |
| Flags.FirstPrefixNone | plugin/utils/flag.py:112-116 | no matching prefix gives None |
| Flags.PrefixedAllSnoc | plugin/utils/flag.py:138-140 | one more body appends one more flag |
| Flags.EntryFlagsPair | plugin/utils/flag.py:87-95 | a separable prefix with an entry after it gives that pair's flags and consumes the next entry |
| Flags.EntryFlagsChunk | plugin/utils/flag.py:96-98 | any other entry is parsed by `from_unparsed_string` and consumes nothing |
| Flags.TokensUnfold | plugin/utils/flag.py:81-98 | an entry that is neither a comment nor skipped adds its flags before the rest |
| Flags.TokensSkip | plugin/utils/flag.py:84-86 | a pending skip drops the next entry that is not a comment and is cleared |
| Flags.TokensComment | plugin/utils/flag.py:82-83 | an entry starting with "#" gives nothing and leaves a pending skip pending |
| Flags.TokenizeEntry | plugin/utils/flag.py:87-98 | one loop body builds exactly `EntryFlags` |
| Flags.TokenizeAt | plugin/utils/flag.py:81-98 | one pass of the loop: its flags followed by the rest of the scan equal the scan from this entry |
| Flags.TokenizeList | plugin/utils/flag.py:69-99 | intended reading, with the corrected `PathPrefixes` (see Findings): the loop returns exactly `Tokenize` of the argument list |
| Flags.TokenizeNext | plugin/utils/flag.py:81-98 | one turn of the loop appends its flags to those so far, and the flags so far followed by the scan of the rest stay the same |
| Flags.TokensPairStep | plugin/utils/flag.py:87-95 | a separable prefix followed by a non-comment gives the pair's flags, and the scan resumes two entries later |
| Flags.TokensSeparablePairOver | plugin/utils/flag.py:87-95 | a non-path separable prefix and the next entry give one Flag(prefix, stripped next); the next entry is not emitted again |
| Flags.TokensSeparablePair | plugin/utils/flag.py:87-95 | the same, with the plugin's prefix tables |
| Flags.TokensCommentStep | plugin/utils/flag.py:82-95 | a "#" entry consumed as a body leaves the skip pending, so the entry after it is dropped |
| Flags.TokensCommentAsBodyOver | plugin/utils/flag.py:82-95 | prefix, comment, x: one flag with the comment as body, and x is dropped |
| Flags.TokensCommentAsBody | plugin/utils/flag.py:82-95 | the same, with the plugin's prefix tables |
| Flags.TokensLastOver | plugin/utils/flag.py:89-98 | a last entry is parsed as a chunk |
| Flags.TokensSeparableLast | plugin/utils/flag.py:89-98 | a separable prefix that is the last entry is parsed by `from_unparsed_string` |
| Flags.TokensPlainOver | plugin/utils/flag.py:96-120 | an entry matching no separable prefix becomes Flag('', stripped entry) |
| Flags.TokensPlain | plugin/utils/flag.py:96-120 | the same, with the plugin's prefix tables, for every iteration order |
| FlagsManagers.ManagerScope.Valid | plugin/completion/flags_manager.py:27-30 | a search scope is valid exactly when both folders are set and non-empty |
| FlagsManagers.DefaultScopeInvalid | plugin/completion/flags_manager.py:18-30 | a scope missing either folder is invalid: nothing defaults a folder |
| FlagsManagers.Dashed | plugin/completion/flags_manager.py:256-257 | the line the prefix tests see starts with '-'; a line that already has one is unchanged, any other gets one in front |
| FlagsManagers.PlanExclusive | plugin/completion/flags_manager.py:43 | none of -std, -isystem, -D, -I begins another |
| FlagsManagers.BothStart | plugin/completion/flags_manager.py:254-258 | of two prefixes that both begin a line, the shorter begins the longer |
| FlagsManagers.MatchesOne | plugin/completion/flags_manager.py:254-258 | with exclusive prefixes a line starts with at most one of them |
| FlagsManagers.PrefixesFlagsNone | plugin/completion/flags_manager.py:254-264 | a line that starts with none of the prefixes contributes no flag |
| FlagsManagers.PrefixesFlagsOne | plugin/completion/flags_manager.py:254-264 | a line that starts with exactly one prefix contributes exactly that prefix's flag |
| FlagsManagers.LineFlagsShape | plugin/completion/flags_manager.py:254-264 | each line gives one flag, made of the matching prefix and the stripped content (joined to the folder for -I/-isystem, masked with or without quotes), when its dashed form starts with a prefix, and none otherwise |
| FlagsManagers.LineFlagsDash | plugin/completion/flags_manager.py:256-257 | a line without a leading '-' gives the same flags as the line with one |
| FlagsManagers.UnionMapMember | plugin/completion/flags_manager.py:251-265 | an element is in the accumulated set exactly when some item contributes it |
| FlagsManagers.ParsedFlagSetMember | plugin/completion/flags_manager.py:251-265 | a flag is in the parsed set exactly when some line gives it |
| FlagsManagers.ParsedFlagSetRepeat | plugin/completion/flags_manager.py:251-264 | the result is a set: a repeated line adds nothing |
| FlagsManagers.AddLineFlags | plugin/completion/flags_manager.py:254-264 | the inner loop over the prefixes adds exactly the flags of the line |
| FlagsManagers.TryPrefixAt | plugin/completion/flags_manager.py:255-264 | one pass of the inner loop extends the set by the flag of that prefix |
| FlagsManagers.TryPrefix | plugin/completion/flags_manager.py:255-264 | a prefix that begins the line adds its flag and otherwise nothing is added |
| FlagsManagers.UnionAssoc | plugin/completion/flags_manager.py:264 | adding flags to the set in steps gives the same set as adding them together |
| FlagsManagers.ParseFlags | plugin/completion/flags_manager.py:246-265 | the returned set is exactly the union of the flags of every line |
| FlagsManagers.LineEnd | plugin/completion/flags_manager.py:240 | the first line of a text runs up to and including its first "\n", or to the end |
| FlagsManagers.ReadFileText | plugin/completion/flags_manager.py:180-240 | the written file reads back as the written flags, one per line with its "\n" |
| FlagsManagers.LineEndAt | plugin/completion/flags_manager.py:183-240 | a written flag line ends just after its "\n" |
| FlagsManagers.MapSeqNl | plugin/completion/flags_manager.py:240 | the lines read back are the written flags, each followed by "\n", in order |
| FlagsManagers.FlagsFromClangFileAsWritten | plugin/completion/flags_manager.py:220-243 | as written, only a file that is not loaded gives an answer (no flags); a loaded file raises |
| FlagsManagers.ClangFileAsWrittenRaises | plugin/completion/flags_manager.py:239 | on any existing file, the code as written raises while the intended reading gives the file's parsed flags |
| FlagsManagers.FlagsFromClangFile | plugin/completion/flags_manager.py:220-243 | an unloaded file gives no flags; a missing one raises; otherwise the parsed flag set of its lines with its folder |
| FlagsManagers.DatabaseFlagsMember | plugin/completion/flags_manager.py:209-215 | a flag comes from the database exactly when some entry gives it |
| FlagsManagers.EntryFlagsMember | plugin/completion/flags_manager.py:211-214 | an entry gives a flag exactly when a part of its command cut at " -" does |
| FlagsManagers.DatabaseFlagsSnoc | plugin/completion/flags_manager.py:215 | one more entry unions its flags into the set |
| FlagsManagers.AddEntryFlags | plugin/completion/flags_manager.py:210-215 | one pass of the loop adds exactly the flags of that entry's command |
| FlagsManagers.FlagsFromDatabase | plugin/completion/flags_manager.py:202-217 | an empty database gives None; it raises KeyError exactly when some entry has no command; otherwise the union of the flags of all commands |
| FlagsManagers.FlagsStrategy | plugin/completion/flags_manager.py:187-199 | a strategy other than "ask" is returned unchanged; "ask" gives merge, overwrite or keep_old for Yes, No or Cancel, each exactly for that answer |
| FlagsManagers.SetOrder | plugin/completion/flags_manager.py:183 | iterating a set yields each element exactly once |
| FlagsManagers.WriteFlagsToFile | plugin/completion/flags_manager.py:167-184 | keep_old on an existing file changes nothing; otherwise only that file changes, and it holds the new flags (merged with the old ones under "merge"), one per line, in some order |
| FolderSearch.ClimbFirstAncestor | plugin/tools.py:350-376 | a folder the climb finds is the start folder or one of its ancestors, and it satisfies the test |
| FolderSearch.OnePast | plugin/completion/flags_file.py:35 | `dirname` of the stop folder: None (the empty path) exactly for the empty stop path |
| FolderSearch.ClimbFirstBetween | plugin/tools.py:353-375 | climbing from a folder below the stop folder finds the deepest qualifying folder no higher than the stop folder, and the root only when it is not the stop folder or the stop path is empty; None means no such folder qualifies |
| FolderSearch.ClimbFirstSpec | plugin/tools.py:350-376 | the whole climb from the start folder: the found folder lies between start and stop folder, qualifies, and no deeper one does |
| FlagsSources.FirstPrefixFrom | plugin/flags_sources/flags_source.py:48-49 | None exactly when no prefix from i on matches; otherwise the first matching one |
| FlagsSources.AbsoluteUnder | plugin/flags_sources/flags_source.py:50-53 | an absolute path is only normalised; a relative one is joined to the folder first |
| FlagsSources.AbsoluteUnderIsAbs | plugin/flags_sources/flags_source.py:38-53 | against an absolute folder, the include path comes out absolute, as the docstring promises |
| FlagsSources.IncludePathOf | plugin/flags_sources/flags_source.py:38-54 | a flag with no include prefix is returned unchanged; otherwise the first matching prefix followed by the stripped rest made absolute |
| FlagsSources.IncludePathOfFirstWins | plugin/flags_sources/flags_source.py:48-53 | only the first matching prefix applies, even when a later one also matches |
| FlagsSources.ToAbsoluteIncludePath | plugin/flags_sources/flags_source.py:38-54 | the loop returns `IncludePathOf` |
| FlagsSources.NonCommentsMember | plugin/flags_sources/flags_source.py:57-60 | a kept line is a stripped line that does not start with "#" after stripping, and every such line is kept |
| FlagsSources.NonCommentsAll | plugin/flags_sources/flags_source.py:57-61 | without comments, every line is kept, stripped |
| FlagsSources.NonCommentsShorter | plugin/flags_sources/flags_source.py:57-61 | no more flags than lines |
| FlagsSources.ParseFlags | plugin/flags_sources/flags_source.py:27-62 | the loop returns `ParsedFlags`: one flag per non-comment line, in order |
| FlagsSources.ParsedFlagsOrigin | plugin/flags_sources/flags_source.py:56-62 | every flag comes from a non-comment line, through `to_absolute_include_path` |
| FlagsSources.CachedFrom | plugin/flags_sources/flags_source.py:64-75 | the cached value exactly for a non-empty path in the cache, else None |
| IncludeParser.InsertByLen | plugin/utils/include_parser.py:44 | inserting adds exactly that element |
| IncludeParser.SortByLen | plugin/utils/include_parser.py:44 | the sorted folders are a permutation of the folders |
| IncludeParser.InsertByLenSorted | plugin/utils/include_parser.py:44 | inserting into a length-sorted list keeps it sorted |
| IncludeParser.SortByLenSorted | plugin/utils/include_parser.py:44 | the folders come out ordered by length, shortest first |
| IncludeParser.OfLengthAppend | plugin/utils/include_parser.py:44 | the folders of one length in two runs are those of the first run, then those of the second |
| IncludeParser.OfLengthLonger | plugin/utils/include_parser.py:44 | a run of longer folders has none of that length |
| IncludeParser.OfLengthCons | plugin/utils/include_parser.py:44 | the folders of one length in a list with a first element are that element, if of that length, then the rest |
| IncludeParser.SortedTail | plugin/utils/include_parser.py:44 | the tail of a sorted list is sorted, and its head is the shortest |
| IncludeParser.OfLengthInsertFront | plugin/utils/include_parser.py:44 | an element shorter than all others goes after no element of its length |
| IncludeParser.OfLengthInsert | plugin/utils/include_parser.py:44 | inserting puts the element after the folders of its own length |
| IncludeParser.SortByLenStable | plugin/utils/include_parser.py:44 | the sort is stable: the folders of each length keep their order |
| IncludeParser.ToPlatformSpecificPaths | plugin/utils/include_parser.py:35-39 | every folder is normalised, in place and in order |
| IncludeParser.MatchesUpToSnoc | plugin/utils/include_parser.py:47-64 | walking one more folder appends its matches |
| IncludeParser.IsRootDuplicate | plugin/utils/include_parser.py:21-33 | True exactly when some folder from the start index on is a prefix of the root |
| IncludeParser.MatchFiles | plugin/utils/include_parser.py:52-64 | the loop over one root's file names gives exactly its matches, in order |
| IncludeParser.WalkFolder | plugin/utils/include_parser.py:49-64 | the loop over the walk of one folder gives exactly its matches, in order |
| IncludeParser.GetAllHeaders | plugin/utils/include_parser.py:8-66 | the request comes back unchanged, with the matches of all folders, sorted by length and normalised when forcing unix includes |
| IncludeParser.RootMember | plugin/utils/include_parser.py:52-64 | of one root, exactly the file names without a dot or matching `*.h*` whose match is non-empty and starts with the prefix give an entry |
| IncludeParser.FolderMember | plugin/utils/include_parser.py:49-51 | of one folder, exactly the roots no later folder covers contribute |
| IncludeParser.MatchesUpToMember | plugin/utils/include_parser.py:47-64 | a match is found exactly when some searched folder contributes it |
| IncludeParser.FileMatchShape | plugin/utils/include_parser.py:13-64 | every kept file gives `[match + "\t" + folder, match]`, the match non-empty, starting with the prefix, relative to the folder, and free of the platform separator when forcing unix includes |
| IncludeParser.ListedExactly | plugin/utils/include_parser.py:47-64 | a file is listed exactly when it is walked from a root no later folder covers and is kept |
| IncludeParser.AllHeadersShape | plugin/utils/include_parser.py:8-66 | every returned entry is a non-empty match starting with the prefix, shown with a tab and a searched folder |
| LibClang.Prepend | plugin/libclang_complete.py:278-300 | completions built so far go in front of the rest, and an error passes through |
| LibClang.ProcessCompletions | plugin/libclang_complete.py:269-301 | the loop gives exactly the completions of the results, in order, and raises when a result is reached with no trigger ever set |
| LibClang.ProcessResult | plugin/libclang_complete.py:280-299 | the inner loop over one result's chunks builds exactly its hint, its contents, and the trigger left after it |
| LibClang.TriggerStays | plugin/libclang_complete.py:285-286 | a trigger once set stays set, and any typed-text chunk sets it |
| LibClang.TriggerLastTyped | plugin/libclang_complete.py:285-286 | the trigger is the spelling of the last typed-text chunk |
| LibClang.TriggerNoTyped | plugin/libclang_complete.py:285-286 | without typed text the trigger is the one from the previous result |
| LibClang.CompletionsShape | plugin/libclang_complete.py:278-300 | the build fails exactly when the first result has no typed text; otherwise there is one completion per result, in order, with that result's contents and a shown text ending in a tab and its hint |
| LibClang.HintAppend | plugin/libclang_complete.py:284-288 | the hint of two runs of chunks is the hint of the first followed by that of the second |
| LibClang.HintAt | plugin/libclang_complete.py:284-288 | every chunk's spelling is in the hint in chunk order, followed by a space for a result type |
| LibClang.ContentsFromAppend | plugin/libclang_complete.py:294-299 | placeholder numbering in a later run of chunks continues from the placeholders before it |
| LibClang.PlaceholderNumber | plugin/libclang_complete.py:282-297 | a placeholder after m earlier ones in the same result becomes ${m+1:spelling} |
| LibClang.PlaceholderCountAppend | plugin/libclang_complete.py:297 | the placeholders of two runs add up |
| LibClang.Shown | plugin/libclang_complete.py:287-293 | the shown chunks are none of result type, optional or informative |
| LibClang.ContentsOmitHidden | plugin/libclang_complete.py:287-293 | result-type, optional and informative chunks add nothing to the contents |
| LibClang.ContentsOfText | plugin/libclang_complete.py:284-299 | with only typed or plain text chunks, the contents equal the hint |
| LibClang.IncludeFlags | plugin/libclang_complete.py:159-161 | one "-I" flag per configured include, in order |
| LibClang.IncludeFlagsSnoc | plugin/libclang_complete.py:160-161 | one more include appends its "-I" flag |
| LibClang.BuildIncludeFlags | plugin/libclang_complete.py:159-161 | the loop builds exactly the include flags |
| LibClang.SearchClangCompleteFile | plugin/libclang_complete.py:304-323 | the path of `.clang_complete` in the first folder, from the start folder up, that lists it, never past the stop folder or the root; None otherwise |
| LibClang.ParseClangCompleteFile | plugin/libclang_complete.py:326-349 | the `.clang_complete` line rules, with includes written as -I<path> and the file's folder for relative paths |
| LibClang.SearchAndParse | plugin/libclang_complete.py:164-173 | the flags of the file the search finds, or none |
| LibClang.LibClangCompleter.constructor | plugin/libclang_complete.py:49-51 | no translation units and no completions ready |
| LibClang.LibClangCompleter.GetDiagnostics | plugin/libclang_complete.py:111-124 | None exactly for a view with no unit, otherwise that unit's diagnostics |
| LibClang.LibClangCompleter.RemoveTu | plugin/libclang_complete.py:126-137 | only that view's unit goes and an unknown id changes nothing; other views keep their diagnostics |
| LibClang.LibClangCompleter.Reparse | plugin/libclang_complete.py:232-250 | True exactly when the view has a unit, which is reparsed; nothing else changes |
| LibClang.LibClangCompleter.InitCompleter | plugin/libclang_complete.py:139-189 | the flags are the std flag, the include flags and the found `.clang_complete` flags when searching; the unit compiled from them replaces the view's, and a failed compile leaves the units as they were |
| LibClang.LibClangCompleter.Complete | plugin/libclang_complete.py:191-230 | with no unit for the view, no results or a failed build nothing changes; otherwise the completions are stored and marked ready |
| PopupErrorVis.AnySevereExists | plugin/error_vis/popup_error_vis.py:161-164 | the loop's flag ends up set exactly when some entry has a severity above 2 |
| PopupErrorVis.AsHtml | plugin/error_vis/popup_error_vis.py:146-167 | the loop builds the popup of the entries, switching to the error template at the first severe entry |
| PopupErrorVis.TemplateChoice | plugin/error_vis/popup_error_vis.py:154-167 | the error template is used exactly when some entry has a severity above 2, and the warning template otherwise, around one div per escaped entry |
| PopupErrorVis.WrapJoin | plugin/error_vis/popup_error_vis.py:165 | wrapping every entry in the same markup is joining the entries with close-then-open markup inside the outer open and close |
| PopupErrorVis.DivHtmlShape | plugin/error_vis/popup_error_vis.py:165 | every entry is its escaped error inside a div |
| PopupErrorVis.PopupContentEntries | plugin/error_vis/popup_error_vis.py:155-167 | the content is the escaped errors joined inside divs, and it reads back, div by div, as the errors in order |
| PopupErrorVis.EscapedEntriesRead | plugin/error_vis/popup_error_vis.py:157-160 | escaped entries joined by markup split back into the entries, which unescape to the errors |
| PopupErrorVis.PopupErrorVis.constructor | plugin/error_vis/popup_error_vis.py:35-37 | no view has errors, so every table is well formed |
| PopupErrorVis.PopupErrorVis.AddError | plugin/error_vis/popup_error_vis.py:71-88 | an error of another file changes nothing; otherwise the error, with its word's region, is appended to its row of the view; well-formed tables stay well formed |
| PopupErrorVis.PopupErrorVis.AddNextError | plugin/error_vis/popup_error_vis.py:64-65 | one turn of the generate loop adds the next error |
| PopupErrorVis.PopupErrorVis.Generate | plugin/error_vis/popup_error_vis.py:39-69 | nothing changes for buffer 0; otherwise the view's table holds exactly the errors of its file, and no other view changes; well-formed tables stay well formed |
| PopupErrorVis.PopupErrorVis.ShowErrors | plugin/error_vis/popup_error_vis.py:90-183 | nothing for a view without a table; otherwise the regions of all its errors |
| PopupErrorVis.PopupErrorVis.PopupIfNeeded | plugin/error_vis/popup_error_vis.py:116-131 | a popup exactly when the view has a table and the row has errors, and then it is that row's popup HTML |
| PopupErrorVis.PopupErrorVis.Clear | plugin/error_vis/popup_error_vis.py:133-144 | the view's table is deleted; an unknown view changes nothing; well-formed tables stay well formed |
| PopupErrorVis.ClearedView | plugin/error_vis/popup_error_vis.py:133-144 | a cleared view has no table; every other view keeps its own |
| PhantomErrorVis.AsHtml | plugin/error_vis/phantom_error_vis.py:91-109 | the loop with its `first_error_processed` flag builds the template around the escaped errors, each after the first preceded by "<br>" |
| PhantomErrorVis.PhantomContentEntries | plugin/error_vis/phantom_error_vis.py:99-107 | no entries give an empty content; otherwise the pieces between the "<br>"s unescape to the errors, in order |
| PhantomErrorVis.PhantomErrorVis.constructor | plugin/error_vis/phantom_error_vis.py:20-27 | no view has errors or a phantom set |
| PhantomErrorVis.PhantomErrorVis.ShowPhantoms | plugin/error_vis/phantom_error_vis.py:31-54 | the view's phantom set is created the first time; it gets one phantom per row with errors, in row order; a view without a table raises KeyError |
| PhantomErrorVis.PhantomErrorVis.ShowErrors | plugin/error_vis/phantom_error_vis.py:56-66 | the parent's regions, then the phantoms |
| PhantomErrorVis.PhantomErrorVis.ShowPopupIfNeeded | plugin/error_vis/phantom_error_vis.py:68-75 | no popup is ever shown |
| PhantomErrorVis.PhantomErrorVis.Clear | plugin/error_vis/phantom_error_vis.py:77-84 | exactly the parent's clear; the phantom sets are left as they are |
| Popups.StripCommentLine | plugin/popups/popups.py:200-201 | a stripped line starts with no '/', '*' or whitespace |
| Popups.StripCommentLines | plugin/popups/popups.py:201 | every line is stripped, and the order and count are kept |
| Popups.FirstNonEmpty | plugin/popups/popups.py:189-196 | the index of the first non-empty line from the start, every line before it empty |
| Popups.FirstEmpty | plugin/popups/popups.py:204-209 | the index of the first empty line, every line before it non-empty |
| Popups.CleanStrippedLines | plugin/popups/popups.py:201-213 | a kept line is one of the stripped lines, so it too starts with no comment character |
| Popups.CleanStrippedAfterBrief | plugin/popups/popups.py:202-213 | after leading empty lines, a brief of non-empty lines and one empty line, exactly the lines after that empty line are kept |
| Popups.CleanStrippedNoBlank | plugin/popups/popups.py:204-212 | when no empty line follows the brief, nothing is kept |
| Popups.StripCommentLinesStart | plugin/popups/popups.py:200-201 | every stripped line is empty or starts with no '/', '*' or whitespace |
| Popups.CleanupCommentLines | plugin/popups/popups.py:187-213 | the cleaned comment is the kept lines joined by "\n", and none of them starts with a comment character |
| Popups.PopPrependingEmptyLines | plugin/popups/popups.py:189-196 | returns the lines from the first non-empty one on |
| Popups.SkipBrief | plugin/popups/popups.py:203-212 | the loop keeps exactly the lines after the first empty line, and nothing when there is none |
| Popups.CleanupCommentSteps | plugin/popups/popups.py:198-213 | the steps compute the cleaned comment |
| Popups.LinkFromLocation | plugin/popups/popups.py:237-261 | without a file the link is the text alone; with trailing_space the result ends with a space |
| Popups.LinkPosition | plugin/popups/popups.py:250-256 | for a text and file name without ':', the link splits at ':' into the bracketed text and file, the line, and the column with ")"; the line reads back |
| Popups.LinkJoin | plugin/popups/popups.py:250-260 | a link with a file is its three fields joined by ':' |
| Popups.ErrorPopup | plugin/popups/popups.py:49-55 | the error popup keeps the text, with the error panel type |
| Popups.WarningPopup | plugin/popups/popups.py:57-63 | the warning popup keeps the text, with the warning panel type |
| Popups.IndentRest | plugin/popups/popups.py:172 | each line is indented by four spaces, and the order and count are kept |
| Popups.JoinIndented | plugin/popups/popups.py:172 | joining with "\n    " indents every line after the first by four spaces |
| Popups.NoNewline | plugin/popups/popups.py:172 | a split piece holds no newline, indented or not |
| Popups.TabbedLines | plugin/popups/popups.py:172 | the tabbed text has the lines of the popup text, each after the first indented by four spaces |
| Popups.AsMarkdownSingleLine | plugin/popups/popups.py:13-174 | a single-line text gives the template with the popup type and the text stripped of whitespace |
| Popups.ConcatAppend | plugin/popups/popups.py:276 | joining two runs of lines gives the joined first run followed by the joined second |
| Popups.TextByExtent | plugin/popups/popups.py:264-276 | None exactly when the extent spans two files; otherwise the lines from start_line to end_line joined |
| Popups.TextByExtentAdjacent | plugin/popups/popups.py:276 | the text of two adjacent extents is the text of their union |
| PluginSettings.StringItems | plugin/plugin_settings.py:150 | only a list, string or dict can be copied with `list(...)` |
| PluginSettings.Strs | plugin/plugin_settings.py:150-162 | the items are accepted exactly when every one is a string, and then they are kept in order |
| PluginSettings.SubstitutedPlain | plugin/plugin_settings.py:157-162 | a folder naming neither project variable is only made absolute |
| PluginSettings.PopulatedDirsLayout | plugin/plugin_settings.py:149-171 | each configured folder keeps its place with its variables replaced and made absolute; the file's folder and then the parent folder follow, each when its flag is set |
| PluginSettings.Settings.constructor | plugin/plugin_settings.py:48-60 | the settings are loaded |
| PluginSettings.Settings.LoadSettings | plugin/plugin_settings.py:68-91 | every field holds the value of its settings key, None for a missing key, and a missing std_flag becomes -std=c++11 |
| PluginSettings.Settings.LoadedValidity | plugin/plugin_settings.py:89-133 | after a load std_flag is set, so the settings are valid exactly when none of the other nine keys is missing |
| PluginSettings.Settings.IsValid | plugin/plugin_settings.py:93-133 | valid exactly when the settings object exists and none of the ten settings is None |
| PluginSettings.Settings.PopulateIncludeDirs | plugin/plugin_settings.py:135-171 | fails exactly when include_dirs cannot be copied as a list of strings; otherwise the populated folders, and the settings themselves are not changed |
| PluginSettings.SubstituteAll | plugin/plugin_settings.py:157-162 | the loop rewrites every folder, in place and in order |
| QuickPanel.ItemsToShow | plugin/utils/quick_panel_handler.py:27-40 | the loop builds exactly `Items`: one entry per error, in order |
| QuickPanel.ItemsOfErrors | plugin/utils/quick_panel_handler.py:11-40 | entry k names error k's file and reads "WARNING: "+error iff its severity is below MIN_ERROR_SEVERITY, else "ERROR: "+error |
| QuickPanel.OnDone | plugin/utils/quick_panel_handler.py:47-53 | nothing is opened iff idx < 0 or idx ≥ len(errors); otherwise the location of error idx is opened |
| QuickPanel.FormattedLocationParts | plugin/utils/quick_panel_handler.py:55-59 | the location "file:row:col" splits back into the error's file, row and column |
| SettingsStore.ObjectGet | plugin/settings/settings_storage.py:184-188 | None exactly when the object has no such key; otherwise a value paired with the key |
| SettingsStore.Lookup | plugin/settings/settings_storage.py:225-230 | None exactly when every prefixed name is None; otherwise the first value that is not None |
| SettingsStore.LookupProject | plugin/settings/settings_storage.py:221-230 | a project load takes the "ecc_" setting when there is one, else the "easy_clang_complete_" one |
| SettingsStore.LookupPlain | plugin/settings/settings_storage.py:223-230 | a plain load reads the bare name |
| SettingsStore.LoadNamesValue | plugin/settings/settings_storage.py:225-235 | a name with a value is set to it; any other attribute keeps what it had |
| SettingsStore.LoadNamesValid | plugin/settings/settings_storage.py:225-235 | the attribute dictionary stays well formed |
| SettingsStore.SecondsOfFields | plugin/settings/settings_storage.py:241-242 | an "H:M:S" string of integer fields gives hours*3600 + minutes*60 + seconds |
| SettingsStore.TwoDigits | plugin/settings/settings_storage.py:239 | a two-digit field is worth ten times its first digit plus its second |
| SettingsStore.DefaultMaxCacheAgeFields | plugin/settings/settings_storage.py:239 | the default "00:30:00" has the fields "00", "30" and "00" |
| SettingsStore.ParseThirty | plugin/settings/settings_storage.py:239 | "30" reads as 30 |
| SettingsStore.ParseZero | plugin/settings/settings_storage.py:239 | "00" reads as 0 |
| SettingsStore.DefaultMaxCacheAgeSeconds | plugin/settings/settings_storage.py:239-242 | the default cache age is 1800 seconds |
| SettingsStore.WithCacheAgeDefault | plugin/settings/settings_storage.py:238-242 | without a `max_cache_age` attribute the cache age becomes 1800 seconds |
| SettingsStore.CacheAgeSecondsOk | plugin/settings/settings_storage.py:241-242 | a well-formed string is replaced by its seconds |
| SettingsStore.WithCacheAgeNum | plugin/settings/settings_storage.py:239-242 | an integer cache age is kept as it is |
| SettingsStore.WithCacheAgeString | plugin/settings/settings_storage.py:241-242 | a cache age string becomes its seconds, or its ValueError is raised |
| SettingsStore.LoadVarsNeedReparse | plugin/settings/settings_storage.py:140-235 | a load whose settings give `progress_style` completes the settings; otherwise `need_reparse` is unchanged |
| SettingsStore.FirstNull | plugin/settings/settings_storage.py:168-173 | the first attribute whose value is None; None exactly when there is none |
| SettingsStore.Attr | plugin/settings/settings_storage.py:175-205 | `getattr` succeeds exactly for an existing attribute, with its value |
| SettingsStore.SourceCheckAccepts | plugin/settings/settings_storage.py:183-191 | a flags source passes exactly when it has a known 'file' |
| SettingsStore.SourcesCheckAccepts | plugin/settings/settings_storage.py:183-191 | the sources pass exactly when every one does |
| SettingsStore.LangCheckAccepts | plugin/settings/settings_storage.py:193-205 | a language tag passes exactly when `lang_flags`, `valid_lang_syntaxes` and `target_compilers` all list it |
| SettingsStore.LangsCheckAccepts | plugin/settings/settings_storage.py:193-205 | the tags pass exactly when every one does |
| SettingsStore.ValidityAccepts | plugin/settings/settings_storage.py:159-206 | (True, "") exactly for settings that pass every check |
| SettingsStore.ValidityNull | plugin/settings/settings_storage.py:168-173 | any None attribute makes the settings invalid, and the message names the first one in attribute order |
| SettingsStore.FirstNullIsFirst | plugin/settings/settings_storage.py:168-173 | the first None attribute comes no later than any other |
| SettingsStore.ValidityProgressStyle | plugin/settings/settings_storage.py:175-178 | with no None attribute, a progress style outside its list is reported with its message |
| SettingsStore.ValiditySource | plugin/settings/settings_storage.py:183-191 | with no None attribute and valid styles, a flags source without 'file' or with an unknown file makes the settings invalid |
| SettingsStore.SourcesCheckRejects | plugin/settings/settings_storage.py:183-191 | one rejected source makes the loop report a message |
| SettingsStore.SettingsStorage.constructor | plugin/settings/settings_storage.py:94-109 | the attributes and the raised error are `LoadVars` of the initial attributes, without prefixes |
| SettingsStore.SettingsStorage.LoadNamesLoop | plugin/settings/settings_storage.py:225-235 | the nested loops give `LoadNames` |
| SettingsStore.SettingsStorage.LoadVarsFromSettings | plugin/settings/settings_storage.py:208-242 | the new attributes and the raised error are `LoadVars` of the old attributes |
| SettingsStore.SettingsStorage.NeedReparse | plugin/settings/settings_storage.py:140-157 | reparse is needed exactly while there is no `progress_style` attribute |
| SettingsStore.SettingsStorage.IsValid | plugin/settings/settings_storage.py:159-206 | the loops with their early returns give `Validity` |
| SettingsStore.CheckRest | plugin/settings/settings_storage.py:175-206 | returns `StylesAndSources` |
| SettingsStore.CheckSources | plugin/settings/settings_storage.py:183-191 | the loop returns `SourcesCheck` |
| SettingsStore.CheckLangs | plugin/settings/settings_storage.py:193-205 | the loop returns `LangsCheck` |
| StampedTus.StampedTu.constructor | plugin/utils/stamped_tu.py:13-20 | keeps the unit and stamps the current time |
| StampedTus.StampedTu.IsOlderThan | plugin/utils/stamped_tu.py:22-33 | true iff strictly more than `age` seconds passed since the last stamp |
| StampedTus.StampedTu.Touch | plugin/utils/stamped_tu.py:35-37 | the stamp becomes now, so the unit is not older than zero seconds and `creation_time` reports now |
| StampedTus.StampedTu.Tu | plugin/utils/stamped_tu.py:39-46 | returns the unit given at construction and restamps it; `creation_time` then reports the latest stamp |
| Singletons.Registry.GetInstance | plugin/utils/singleton.py:13-19 | the first call for a class stores a fresh instance of it; every later call returns the stored one and changes nothing, whatever its arguments |
| Singletons.DistinctClassesDistinctInstances | plugin/utils/singleton.py:13-61 | two decorated classes never share an instance |
| Singletons.GetTwice | plugin/utils/singleton.py:15-19 | two calls for the same class return the identical instance |
| Singletons.Registry.constructor | plugin/utils/singleton.py:13 | the registry starts empty |
| Singletons.CacheDict.constructor | plugin/utils/singleton.py:28-61 | a cache singleton is an empty dict of its class |
| ThreadJobs.NewJob | plugin/utils/thread_job.py:28-42 | a new job carries its name and has no future yet |
| ThreadJobs.OverridesReflexive | plugin/utils/thread_job.py:54-64 | every job overrides itself; same-type is symmetric |
| ThreadJobs.HighPriorityOverrides | plugin/utils/thread_job.py:44-60 | an 'update' or 'clear' job overrides every job that is neither |
| ThreadJobs.LowPriorityOverridesSameName | plugin/utils/thread_job.py:54-60 | a job that is not high priority overrides exactly the jobs of its own name |
| ThreadJobs.UpdateClearIndependent | plugin/utils/thread_job.py:44-60 | 'update' and 'clear' do not override each other |
| ThreadJobs.OverridesByName | plugin/utils/thread_job.py:54-64 | overriding depends only on the two names |
| Tools.PosStatus.Code | plugin/tools.py:188-200 | each position status has its integer code below 4 |
| Tools.PosStatusCodesDistinct | plugin/tools.py:197-200 | two statuses share a code iff they are the same status |
| Tools.CheckUnchanged | plugin/tools.py:268-289 | an empty path gives False and leaves the cache as it was; otherwise the actual mtime is recorded, and the answer is True iff the recorded mtime equalled the actual one |
| Tools.CheckUnchangedTwice | plugin/tools.py:268-289 | a second check with the same mtime is True; one with a later mtime is True iff that mtime is the same |
| Tools.ModificationCache.IsUnchanged | plugin/tools.py:268-289 | the class-level cache is updated as `CheckUnchanged` says and the same answer is returned |
| Tools.ModificationCache.UpdateModTime | plugin/tools.py:325-334 | records the file's current mtime and nothing else |
| Tools.ModificationCache.constructor | plugin/tools.py:205 | the class-level cache starts empty |
| Tools.CanonicalPath | plugin/tools.py:291-307 | None for an empty or missing input; an absolute input is normalised; a relative one is joined to the folder and normalised |
| Tools.CanonicalPathAbsolute | plugin/tools.py:302-307 | an absolute input ignores the folder and stays absolute, without ".", ".." or empty components |
| Tools.CanonicalPathRelative | plugin/tools.py:305-307 | a relative input under an absolute folder becomes absolute |
| Tools.NewSearchScope | plugin/tools.py:384-398 | a missing folder defaults to the root, so a new scope is valid |
| Tools.Search | plugin/tools.py:336-376 | the folder-climbing loop returns exactly `SearchResult`: the file in the first folder that holds it and satisfies a query (any folder when no query is given), or None |
| Tools.SearchFindsNearest | plugin/tools.py:350-376 | with the stop folder above the start folder, the result is the nearest qualifying folder between them, no folder below it qualifies, and None means none between them does |
| Tools.SearchMissingStart | plugin/tools.py:350-352 | a start folder that does not exist finds nothing |
| Tools.IdentifierDistinguishes | plugin/tools.py:436-438 | two requests have the same identifier iff they share buffer id and trigger position |
| Tools.ToMd | plugin/tools.py:513-522 | a one-element list gives that element unchanged; an empty list raises IndexError |
| Tools.Bullets | plugin/tools.py:516-519 | every element prefixed with "- ", in order |
| Tools.ToMdList | plugin/tools.py:516-519 | two or more errors give each error prefixed with "- ", joined by "\n" |
| Tools.BulletsJoin | plugin/tools.py:518-519 | joining with "\n- " and prefixing "- " is the bullet list joined by "\n" |
| Tools.SecondsFromString | plugin/tools.py:634-645 | a result exists only for exactly three ':'-separated fields |
| Tools.SecondsFromParts | plugin/tools.py:644-645 | a result exists only for exactly three fields |
| Tools.SecondsFromStringValue | plugin/tools.py:634-645 | "H:M:S" gives H*3600 + M*60 + S |
| Tools.SecondsFromFields | plugin/tools.py:645 | three integer fields give H*3600 + M*60 + S |
| Tools.FindFlagIdx | plugin/tools.py:806-815 | the smallest index whose flag starts with the prefix, or None when no flag does |
| Tools.CharAt | plugin/tools.py:667-669 | `view.substr(point)` is one character |
| Tools.GetPosStatus | plugin/tools.py:647-696 | a digit word gives WRONG_TRIGGER; otherwise an empty trigger reached before any full match raises IndexError, exactly then; a full trigger match gives COMPLETION_NEEDED; a last-character-only match gives WRONG_TRIGGER; else autocomplete_all gives COMPLETION_NEEDED; else an "#include" line gives COMPLETE_INCLUDES; else NOT_NEEDED, each as an iff |
| Tools.SplitThreeChar | plugin/tools.py:781 | a version with two dots splits into its three fields |
| Tools.SplitTwoChar | plugin/tools.py:781 | a version with one dot splits into its two fields |
| Tools.AppleClangVersion | plugin/tools.py:774-798 | the version found is the table entry of its key; an unmapped key raises |
| Tools.AppleClangDropsPatch | plugin/tools.py:780-781 | "X.Y.Z" is looked up as "X.Y" |
| Tools.AppleClangTwoFields | plugin/tools.py:780-790 | a two-field "X.Y" is looked up as "X", which the table lacks, so it raises |
| UniqueList.IndexOf | plugin/utils/__init__.py:4 | the index of the first occurrence: it holds the element and no earlier position does |
| UniqueList.FirstOccurrencesSpec | plugin/utils/__init__.py:4 | the reference definition has no duplicates, the same elements as its input, and first-occurrence order |
| UniqueList.UniqueIsFirstOccurrences | plugin/utils/__init__.py:4 | `UniqueList(xs)` is exactly the first occurrences of `xs` |
| UniqueList.UniqueSpec | plugin/utils/__init__.py:4 | a unique list has no duplicates, holds exactly the input's elements, and keeps the order in which they first appear |
| UniqueList.ExtendSpec | plugin/utils/__init__.py:4 | `+=` keeps the old list as a prefix, adds every missing element once, and adds nothing already present |
| UniqueList.ExtendUnique | plugin/flags_sources/compilation_db.py:131-176 | extending a unique list step by step equals building it from the whole concatenation |
| UniqueList.UniquePrefix | plugin/view_config.py:262-270 | the unique list of a concatenation starts with the unique list of its first part |
| UniqueList.UniquePrefixOfFour | plugin/view_config.py:262-270 | the same for the four-part merge of flags |
| ViewConfigs.ViewConfig.constructor | plugin/view_config.py:53-79 | an invalid view, or essentials without a completer, leave no completer; otherwise the completer carries the merged flags and the include folders are stored |
| ViewConfigs.ViewConfig.NeedsUpdate | plugin/view_config.py:109-129 | an update is needed exactly when there is no completer, its class name differs, or its flags differ |
| ViewConfigs.ViewConfig.GetAge | plugin/view_config.py:131-146 | a configuration whose age is positive is older than every smaller non-negative age |
| ViewConfigs.ViewConfig.Touch | plugin/view_config.py:148-150 | a configuration just touched is older than no non-negative age; nothing else changes |
| ViewConfigs.ViewConfig.UpdateIfNeeded | plugin/view_config.py:81-165 | afterwards no update is needed for these essentials; a needed update installs the new completer and folders and records the file's modification time; otherwise the completer is kept and reparsed exactly when the file changed |
| ViewConfigs.StdIndices | plugin/view_config.py:231-236 | exactly the positions of the "-std=" flags, in increasing order |
| ViewConfigs.MergedLang | plugin/view_config.py:253-259 | when both lists hold a std flag, the first std flag of the language flags is removed and nothing else; otherwise the list is unchanged |
| ViewConfigs.MergedLangSingleStd | plugin/view_config.py:253-259 | a single std flag in the language flags is dropped in favour of the source's, leaving none |
| ViewConfigs.MergedFlagsSpec | plugin/view_config.py:216-264 | the merged flags have no duplicates, hold exactly the flags of the four lists, keep first-occurrence order and keep every initial and source flag |
| ViewConfigs.MergedFlagsInitFirst | plugin/view_config.py:261-264 | the initial flags come first, deduplicated, in their order |
| ViewConfigs.FlagList.constructor | plugin/view_config.py:231-259 | a list object holding the given flags |
| ViewConfigs.MergeFlags | plugin/view_config.py:216-264 | deletes in the caller's list the std flag `MergedLang` removes, and returns `MergedFlags` |
| ViewConfigs.FlagStrings | plugin/view_config.py:195-197 | the string list is at least as long as the flag list |
| ViewConfigs.FlagStringsOfBodies | plugin/view_config.py:195-197 | flags without a prefix give exactly their bodies, one string each |
| ViewConfigs.FlagsAsStrList | plugin/view_config.py:195-197 | the loop builds `FlagStrings` |
| ViewConfigs.PairFolders | plugin/view_config.py:206-212 | one (flag, prefix) pair adds at most one folder |
| ViewConfigs.IncludeFoldersMember | plugin/view_config.py:203-213 | a folder is listed iff some flag and some prefix contribute it: the body when the flag's prefix starts with the prefix, otherwise the rest of a body that starts with it |
| ViewConfigs.IncludeFoldersAppend | plugin/view_config.py:203-213 | the folders of two flag lists are the folders of each, one after the other |
| ViewConfigs.IncludeFolderForms | plugin/view_config.py:206-212 | a separate include flag and the same path glued to the prefix both give the path |
| ViewConfigs.GetIncludeFolders | plugin/view_config.py:203-213 | the nested loops build `IncludeFolders` |
| ViewConfigs.LastLineWith | plugin/view_config.py:367-371 | the last line starting with the marker, or -1; no later line starts with it |
| ViewConfigs.IncludeLines | plugin/view_config.py:365-374 | the lines strictly between the last include marker and the last end marker, none of them an include marker, and none unless an end marker follows the last include marker |
| ViewConfigs.ClangIncludes | plugin/view_config.py:372-375 | one include per visited line |
| ViewConfigs.ClangIncludesAt | plugin/view_config.py:374 | each include is "-I" and the normalised, stripped line |
| ViewConfigs.LastLineWithSnoc | plugin/view_config.py:367-371 | a new line that starts with the marker becomes the last one |
| ViewConfigs.MarkersExclusive | plugin/view_config.py:368-371 | no line starts with both markers, so the `elif` loses nothing |
| ViewConfigs.GetIncludesFromClang | plugin/view_config.py:363-377 | splits the output on "\n" and returns `ClangIncludes` |
| ViewConfigs.IncludesFromLines | plugin/view_config.py:372-375 | the second loop returns `ClangIncludes` |
| ViewConfigs.IncludeRange | plugin/view_config.py:365-371 | the first loop finds the start after the last include marker and the end at the last end marker |
| ViewConfigs.LoadFromSpec | plugin/view_config.py:282-323 | intended reading, every flag source built with the arguments its class takes (see Findings): with known file names: entries without "file" are skipped, and the result is the flags of the first entry that gives any, or [] exactly when none does |
| ViewConfigs.ScopeAtTail | plugin/view_config.py:288-293 | a "search_in" of an earlier entry persists for the entries after it |
| ViewConfigs.LoadFromUnbound | plugin/view_config.py:294-318 | an entry with an unknown file name before any known one fails, as the unbound `flag_source` does |
| ViewConfigs.LoadSourceFlagsAsWritten | plugin/view_config.py:294-310 | as written, a first entry for "CMakeLists.txt" or "compile_commands.json" raises `TypeError`: `CMakeFile` gets six arguments and `CompilationDb` two |
| ViewConfigs.LoadSourceFlagsMisbuilt | plugin/view_config.py:294-310 | for a first entry naming a CMake file or compilation database that has flags, the code as written raises while the intended reading returns those flags |
| ViewConfigs.LoadSourceFlags | plugin/view_config.py:267-323 | intended reading, every flag source built with the arguments its class takes (see Findings): the loop returns `LoadSourceFlagsOf`, starting in the view's folder and stopping at the project folder |
| ViewConfigs.DefaultFlagWordsBuiltIns | plugin/view_config.py:405-419 | built-ins keep the other flags in front, are all present afterwards, and each appended one was absent before and is appended once |
| ViewConfigs.AppendBuiltIns | plugin/view_config.py:409-419 | the loop appends exactly the built-ins not yet present, in order |
| ViewConfigs.GetDefaultFlags | plugin/view_config.py:380-421 | tokenizes "-x <language>" when asked, the language flags, the clang default includes when used, and the new built-ins of `CompilerBuiltIns([target_compiler, "-x", lang], None)` when a target compiler is set, whose memo then records that configuration |
| ViewConfigs.GenerateEssentials | plugin/view_config.py:168-200 | the completer, the merged flags as strings and their include folders |
| ViewConfigs.ViewConfigManager.constructor | plugin/view_config.py:429-447 | an empty cache and the given timer period and maximum age |
| ViewConfigs.ViewConfigManager.GetFromCache | plugin/view_config.py:449-460 | a result exactly for a valid view that is cached; that configuration is touched and otherwise unchanged, and the cache is unchanged |
| ViewConfigs.ViewConfigManager.LoadForView | plugin/view_config.py:462-500 | an invalid view gives None; otherwise the view's configuration is cached and returned, and the maximum age comes from the settings; an existing one is updated in place and needs no update afterwards, a new one is built from the essentials |
| ViewConfigs.ViewConfigManager.ClearForView | plugin/view_config.py:502-510 | forgets that id only and returns it |
| ViewConfigs.ViewConfigManager.RemoveOldConfigs | plugin/view_config.py:554-571 | keeps exactly the configurations not older than the maximum age, unchanged |
| ViewConfigs.SomeId | plugin/view_config.py:562 | a non-empty set of ids has one to visit |
| ViewConfigs.ClearThenGet | plugin/view_config.py:449-510 | after clearing a view's configuration, `get_from_cache` gives None |

## Left out

- The Sublime Text UI is not modelled: `SublBridge`, drawing regions, popups and phantoms, the status bar, dialogs and output panels, and the progress animation. The model keeps what would be drawn (HTML text, region lists, phantom lists), and a dialog's answer is a parameter.
- Subprocesses are not run. This covers the clang binary (completions, `-v` include output, `#define` output), the version query and the `cmake` build. Their output is a parameter, and `FlagsManager.compile_cmake` is not part of this model.
- libclang objects are not modelled. A translation unit is an opaque value, and completion results are sequences of chunks. `Completer.get_diagnostics` and `reparse` only look a unit up.
- Threads, timers and daemon threads are not modelled. `ViewConfigManager.__run_timer` and its `trigger_get_declaration_location`, `trigger_info` and `trigger_completion` hand work to a thread pool, and the completion thread started by `on_query_completions` is reduced to a boolean. `__remove_old_configs` is modelled as one sequential sweep.
- `EasyClangComplete.py`: `plugin_loaded`, `on_activated_async`, `on_post_save_async`, `on_modified_async`, `on_selection_modified` and `on_close` are editor glue around the completer and error calls that are modelled.
- `ClangAutoComplete.py`: `on_activated_async`, `on_post_save_async` and `write_body_to_temp_file` build libclang units and write files, so they are not modelled. `init_completer` is modelled up to its call of `from_source`. A unit is taken to exist exactly when a bindings module was chosen, and clang's results are a parameter. Importing the bindings module is modelled as choosing its name.
- ClangAutoCompletePlugin.ClangAutoComplete.PopulateIncludeDirs: a value of `include_dirs` that is not a list is kept unchanged (see also `ClangAutoCompletePlugin.Populated`). For a non-empty dictionary, Python writes entries under the keys 0, 1, … before the loop raises, and the model does not capture those writes.
- `SettingsStorage.update_from_view` and its wildcard helpers (`__update_wildcard_values`, `__replace_wildcard_if_needed`, `__populate_flags_source_paths`, `__populate_common_flags`, `__update_ignore_list`) are not modelled: they call `sublime.expand_variables` and `expand_all`.
- The file system is given rather than read. `os.walk`, `glob`, `fnmatch`, `expand_all` and `expand_star_wildcard` are parameters, and so is `json.load` (database entries arrive as maps). `File.__init__` does not create files, and `~` expansion in `canonical_path` is not modelled. `FolderSearch.Entries` lists nothing for a folder the file system does not hold, where `os.listdir` raises `FileNotFoundError` (plugin/libclang_complete.py:317, plugin/clang_bin_complete.py:301, plugin/completion/flags_file.py:37); the upward searches then climb on instead of raising.
- Folders in the upward searches (`FolderSearch.ClimbFirst` and its callers `FlagsFiles.FindClangComplete`, `LibClang.SearchClangCompleteFile`, `ClangBinComplete.Completer.InitCompleter` and `Tools.Search`) are lists of path components: a folder stands for a normalised absolute path without a trailing slash, and the root is []. The empty stop path "", which the window gives when it has no folder (EasyClangComplete.py:155-160), is `None`, so the search runs up to and including the root. A stop folder written with a trailing slash ("/a/b/", whose `dirname` is "/a/b") makes Python stop before "/a/b" itself; the model has no such spelling and always searches its stop folder.
- Windows paths are not modelled: no drive letters, and no backslash separators except where `force_unix_includes` replaces the platform separator.
- `shlex.split` is not modelled. A compilation database's "command" arrives already split into words, and so do the arguments `CompilerBuiltIns` receives as a string.
- Character classes: `str.isspace`, `str.strip()`, `\s` and `str.splitlines` use Python's own sets of whitespace and line-break characters (`Strings.Whitespace`, `Strings.LineBreaks`). `\w` follows Python for the characters up to U+00FF, which covers all output decoded byte by byte with `chr` (plugin/clang_bin_complete.py:192, plugin/tools.py:728). Above U+00FF, letters and digits are not word characters in the model. `\d`, `str.isdigit` and `int()` accept the ASCII digits only, where Python also accepts other Unicode digits ("²", "٣").
- `int()` does not accept underscores in the model.
- CompilerBuiltIns.DefineFlag: in `[\w()]+` and `\w+` (plugin/utils/compiler_builtins.py:173, 177), a letter or digit above U+00FF ends the macro name, where Python's `\w` takes it. Output decoded with `chr` never holds such a character; the UTF-8 text `run_command` returns after a failed command (plugin/tools.py:730) can, and for it the model gives a shorter name or no flag.
- CompilerBuiltIns.DefinesFromOutput: the same gap as `DefineFlag`, line by line. The lines themselves are exactly those of `str.splitlines`.
- ClangBinComplete.ProcessCompletions: in the placeholder groups (plugin/clang_bin_complete.py:50-60), a letter or digit above U+00FF is not a group character. clang's output after a failed run is decoded as UTF-8 (line 194), so a placeholder such as `<#ψ#>` there stays literal in the model where Python makes `${1:ψ}`. For the `chr`-decoded output of a successful run (line 192) the classes agree with Python's.
- ClangBinComplete.Completer.Complete: inherits the gap of `ProcessCompletions` for UTF-8 output after a failed run; its line splitting is exactly `str.splitlines`.
- EasyClangCompletePlugin.NeedsAutocompletion: `word_on_the_left.isdigit()` (EasyClangComplete.py:132) is modelled on ASCII digits, so a word of other Unicode digits ("²", "٣") asks for completion in the model and not in the source.
- Tools.GetPosStatus: the same digit test (plugin/tools.py:662), so a word of other Unicode digits does not give WRONG_TRIGGER in the model.
- Tools.SecondsFromString: `int()` (plugin/tools.py:645) is modelled on ASCII digits without underscores, so fields such as "٣" or "1_0", which Python reads, give `ValueError` in the model.
- FlagsManagers.ReadFileText and FlagsManagers.LineEnd split lines only at "\n". `open()` reads with universal newlines (plugin/completion/flags_manager.py:239-240), so in the source a lone "\r" or "\r\n" also ends a line and reads back as "\n"; a flag holding "\r" is therefore read back differently there.
- PopupErrorVis and PhantomErrorVis: a `string.Template` is modelled as the text before and after one `$content` placeholder (`PopupErrorVis.Template`). The HTML template files are not part of this model, so other placeholders, `$$` escapes and the `KeyError` or `ValueError` that `substitute` raises on them (plugin/error_vis/popup_error_vis.py:167, plugin/error_vis/phantom_error_vis.py:109) are not captured.
- QuickPanel: `MIN_ERROR_SEVERITY` is imported from plugin/error_vis/popup_error_vis.py (plugin/utils/quick_panel_handler.py:6-7), which does not define it, so its value is not known and `ItemsToShow` and `ItemsOfErrors` take it as a parameter. As written, importing the handler raises `ImportError`.
- `re.sub` does not process backslash escapes in replacement strings (plugin/plugin_settings.py:158-160): a replacement is inserted literally.
- `Tools.get_unique_str` (an md5 hash) and `time.time()` are not modelled; the clock is a parameter.
- `FlagsManager.__init__`, `any_file_modified` and `get_flags` are not modelled. They build `File` objects and call `compile_cmake`. Their parts are modelled: `parse_flags`, `flags_from_clang_file`, `flags_from_database`, `write_flags_to_file` and `get_flags_strategy`.
- FlagsManagers.FlagsStrategy: the "ask" dialog is a three-way pick (Yes, No, Cancel). The dialog's text and its window are not modelled.
- CompilationDatabase.LoadDb: a cached value whose key is the current database path but which holds a path instead of a parsed database is reported as "KeyError", the exception the lookup would raise.
- ErrorVis.CompileErrors.AddError: requires that the view's table exists when the error belongs to the view's file. Without the table, `add_error` raises `KeyError`, which the model does not represent. `generate` always creates the table first.
- PopupErrorVis.PopupErrorVis.AddError: the same requirement as `CompileErrors.AddError`, for the same reason.
- CompilationDatabase.CompilationDb.GetFlags: states the intended reading of `get_flags`. As written, the call raises `AttributeError` at plugin/flags_sources/compilation_db.py:58 before this is reached; `CompilationDatabase.GetFlagsAsWritten` models that (see Findings).
- CompilationDatabase.GetFlagsNoDatabase: states the intended reading of `get_flags`. As written, the call raises `AttributeError` at plugin/flags_sources/compilation_db.py:58 before this is reached; `CompilationDatabase.GetFlagsAsWritten` models that (see Findings).
- CompilationDatabase.GetFlagsCachedNotReparsed: states the intended reading of `get_flags`. As written, the call raises `AttributeError` at plugin/flags_sources/compilation_db.py:58 before this is reached; `CompilationDatabase.GetFlagsAsWritten` models that (see Findings).
- CompilationDatabase.AnswerIgnoresParsed: states the intended reading of `get_flags`. As written, the call raises `AttributeError` at plugin/flags_sources/compilation_db.py:58 before this is reached; `CompilationDatabase.GetFlagsAsWritten` models that (see Findings).
- CompilationDatabase.GetFlagsChangedUnparsable: states the intended reading of `get_flags`. As written, the call raises `AttributeError` at plugin/flags_sources/compilation_db.py:58 before this is reached; `CompilationDatabase.GetFlagsAsWritten` models that (see Findings).
- CompilationDatabase.GetFlagsOwnEntry: states the intended reading of `get_flags`. As written, the call raises `AttributeError` at plugin/flags_sources/compilation_db.py:58 before this is reached; `CompilationDatabase.GetFlagsAsWritten` models that (see Findings).
- CompilationDatabase.GetFlagsAllEntry: states the intended reading of `get_flags`. As written, the call raises `AttributeError` at plugin/flags_sources/compilation_db.py:58 before this is reached; `CompilationDatabase.GetFlagsAsWritten` models that (see Findings).
- CompilationDatabase.GetFlagsRelated: states the intended reading of `get_flags`. As written, the call raises `AttributeError` at plugin/flags_sources/compilation_db.py:58 before this is reached; `CompilationDatabase.GetFlagsAsWritten` models that (see Findings).
- ViewConfigs.LoadFromSpec: states the intended reading, in which the sources for "CMakeLists.txt" and "compile_commands.json" are built without raising. As written, building either raises `TypeError` (plugin/view_config.py:297-310); `ViewConfigs.LoadSourceFlagsAsWritten` models that (see Findings).
- ViewConfigs.LoadSourceFlags: states the intended reading, in which the sources for "CMakeLists.txt" and "compile_commands.json" are built without raising. As written, building either raises `TypeError` (plugin/view_config.py:297-310); `ViewConfigs.LoadSourceFlagsAsWritten` models that (see Findings).
- CompilationDatabase.Format substitutes only the three fields `{basename}`, `{stamp}` and `{ext}` and undoubles `{{` and `}}`. Any other replacement field (`{0}`, `{}`, `{name}`, a conversion or a format spec) and any single brace are kept as literal text. Python's `str.format` raises `KeyError`, `IndexError` or `ValueError` on them (plugin/flags_sources/compilation_db.py:233-237), so the model does not capture those errors in `_find_related_sources`.
- FlagsManagers.FlagsFromClangFile, FlagsManagers.FlagsFromDatabase, FlagsManagers.ParseFlags and FlagsManagers.WriteFlagsToFile read the file's path and folder as plain values. The source calls `file.full_path()` and `file.folder()` (plugin/completion/flags_manager.py:205, 239, 250), but plugin/tools.py:227-243 declares both as properties holding strings. As written, each of these raises `TypeError` once it reaches such a call: every `flags_from_database`, every `parse_flags`, `flags_from_clang_file` on a loaded file, and the "merge" strategy of `write_flags_to_file`. Only `flags_from_clang_file` is modelled as written too (see Findings); the other members model the intended reading.
- State that the source shares between objects is modelled per object, so two objects of the same class never see each other's entries. The exception is `CompilerBuiltIns`, whose shared memo is an explicit `BuiltInsCache` object. This covers:
  - the class attributes `clang_binary` and `version_str` of the binary completer (plugin/clang_bin_complete.py:36-37);
  - `completions`, `translation_units` and `async_completions_ready` of the libclang completer (plugin/libclang_complete.py:47-51);
  - `err_regions` and `phantom_sets` of the error views (plugin/error_vis.py:23-24, plugin/error_vis/phantom_error_vis.py:27);
  - `File.__modification_cache` (plugin/tools.py:205);
  - the singleton caches `ViewConfigCache` (plugin/view_config.py:443) and `ComplationDbCache` (plugin/flags_sources/compilation_db.py:40).
- IncludeParser: `get_all_headers` sorts the caller's `folders` list in place (plugin/utils/include_parser.py:44) and, with `force_unix_includes`, normalises its items in place (lines 35-39, 46). The model returns the sorted and normalised folders as a new sequence and leaves the caller's list as it was.
- In both settings classes, `on_settings_changed` and the `add_on_change` callback are not modelled separately. A settings change is `LoadSettings` called again.
- `plugin/settings.py`, `plugin/completion/bin_complete.py`, `lib_complete.py` and `base_complete.py` are not part of this model: they duplicate the modules above or cannot be imported.

## Findings

| source | as written | input that shows it | evidently intended | confidence | as-written member | corrected member |
|---|---|---|---|---|---|---|
| plugin/utils/flag.py:163-164 | a missing comma joins "-fprebuilt-module-path" and "-fprofile-use" into one string in `PREFIXES_WITH_PATHS` | the flag "-fprofile-use" with body "prof/*.profdata": `build_with_expansion` keeps it as it is | both prefixes are path prefixes, and their bodies are expanded | high, not executed | Flags.PathPrefixesAsWrittenLosesTwo | Flags.ProfileUseNotExpandedAsWritten |
| plugin/completion/flags_manager.py:239 | `file.full_path()` calls the string that the property `File.full_path` (plugin/tools.py:227-234) returns | any loaded `.clang_complete` file that exists: `flags_from_clang_file` raises `TypeError` instead of reading it | `file.full_path`, without the call | high, not executed | FlagsManagers.ClangFileAsWrittenRaises | FlagsManagers.FlagsFromClangFile |
| ClangAutoComplete.py:147 | `is_valid` reads `std_flag`, a name the module never defines | any settings whose first eight checks pass make `is_valid` raise `NameError` | `self.std_flag is None` | high, not executed | ClangAutoCompletePlugin.Settings.IsValidAsWritten | ClangAutoCompletePlugin.Settings.IsValid |
| plugin/flags_sources/compilation_db.py:58 | `get_flags` calls `self._update_search_scope`, which neither `CompilationDb` nor `FlagsSource` (plugin/flags_sources/flags_source.py) defines | any call, e.g. with no `compile_commands.json` in the scope: `AttributeError` instead of None | a search scope made ready (the one given, or one around the file), then the lookup of lines 60-109 | high, not executed | CompilationDatabase.GetFlagsAsWrittenRaises | CompilationDatabase.CompilationDb.GetFlags |
| plugin/view_config.py:297-310 | `CMakeFile(...)` gets six arguments where its `__init__` takes two (plugin/flags_sources/cmake_file.py:38); `CompilationDb(...)` gets two where it takes three (plugin/flags_sources/compilation_db.py:28-30) | a `flags_sources` list whose first entry is {"file": "CMakeLists.txt"}: `TypeError` instead of the CMake flags | each source built with the arguments its class takes | high, not executed | ViewConfigs.LoadSourceFlagsMisbuilt | ViewConfigs.LoadFromSpec |
