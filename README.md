# highlighter.nvim, modelled in Dafny

highlighter.nvim is a Neovim plugin. On `HighlighterUpdate` it finds the
project root of the current buffer and runs ctags over that root. It then
groups the tags ctags prints by kind and turns the filetype's highlight
rules into one `" | "`-joined batch of Vim commands. The batch holds
`syntax clear`, `syntax keyword` and `syntax match` commands, and the plugin
hands it to the editor. `HighlighterClear` sends only the `syntax clear`
commands.

This project models that logic as Dafny functions, methods and one class,
and proves what the commands contain:

- `text.dfy`: Python's `str.split` and `str.join`, with their round trips.
- `escape.dfy`: the pattern escaping of tag names, one character at a time.
- `tags.dfy`: the ctags argument vector, the line splitting of its output, and `make_tags_data`.
- `syntax.dfy`: the rule datatype, the command templates, `make_syntax_commands` and `make_syntax_clear_commands`.
- `root.dfy`: POSIX `os.path.dirname` and `find_project_root` over a set of existing paths.
- `plugin.dfy`: the language remap, the ctags options, and the `Highlighter` class with `init_members`, `update` and `clear`.

The editor, the ctags process and the file system are parameters:

- The configuration globals are a `Config` value.
- The filetype and buffer name are strings.
- The ctags process is a function from argument vector to `Option<string>`. `None` stands for a run that raised (see the `except` at line 71).
- The file system is a set of existing paths and a set of directories.
- Python iterates a `set` in an order the language leaves open. The model takes that order as a parameter `order: set<string> -> seq<string>`, one order per set value (see "Left out"). Where a property needs it, it assumes only that `order(s)` lists each element of `s` once.

Three behaviours of the code are easy to misread, and the model follows
the code in each:

- The language remap (lines 36-37): the second assignment overwrites the first. So `cs` becomes `c#` and `cpp` stays `cpp`.
- The root search (lines 58-63): the outer loop is over signs and the inner one over directories. So a sign configured earlier wins over a nearer directory that holds a later sign.
- A rule whose `syntax_type` is neither `keyword` nor `match` does not quietly produce no command. At line 106 it appends a stale `cmd`, or fails when none was bound yet. The model makes this a precondition.

## Model

All source paths are in `rplugin/python3/highlighter/__init__.py`.

| member | source | states |
|---|---|---|
| Text.Split | rplugin/python3/highlighter/__init__.py:77 | `split` with a one-character separator gives one more piece than there are separators, and no piece contains the separator |
| Text.JoinSplit | rplugin/python3/highlighter/__init__.py:77 | joining the pieces of a split with the separator gives back the string |
| Text.Join | rplugin/python3/highlighter/__init__.py:98 | `sep.join(parts)` starts with the first part; its round trips with `split` are the rows around it |
| Text.SplitJoin | rplugin/python3/highlighter/__init__.py:98 | splitting a join gives back the parts, when no part contains the separator |
| Escape.Escape | rplugin/python3/highlighter/__init__.py:91-92 | the escaped name is as long as the name plus the number of characters among `. * ^ $ / \ ~ [ ]` in it |
| Escape.UnescapeEscape | rplugin/python3/highlighter/__init__.py:91-92 | removing the inserted backslashes gives back the original name |
| Escape.EscapeAppend | rplugin/python3/highlighter/__init__.py:91-92 | escaping works character by character: the escape of `a + b` is the escape of `a` followed by that of `b` |
| Escape.EscapePlain | rplugin/python3/highlighter/__init__.py:91-92 | a name without special characters is left unchanged |
| Escape.EscapeAll | rplugin/python3/highlighter/__init__.py:102 | `map(escape, names)`: as many escaped names as names, the i-th the escape of the i-th |
| Escape.EscapeWellEscaped | rplugin/python3/highlighter/__init__.py:91-92 | in the output, every backslash is followed by a special character, and every other special character is preceded by an escaping backslash |
| Tags.CtagsArgv | rplugin/python3/highlighter/__init__.py:67 | the argument vector is `ctags -f - --sort=no --excmd=number` followed by the options |
| Tags.OutputLines | rplugin/python3/highlighter/__init__.py:68-72 | a failed run gives no lines; otherwise there are as many lines as newlines, and no line contains a newline |
| Tags.OutputLinesOfTable | rplugin/python3/highlighter/__init__.py:69-70 | newline-terminated lines parse back to exactly those lines; an unterminated last piece is dropped |
| Tags.TagsDataMeaning | rplugin/python3/highlighter/__init__.py:76-84 | the table's keys are exactly the fourth fields of the lines, and each key maps to exactly the first fields of the lines with that fourth field |
| Tags.MakeTagsData | rplugin/python3/highlighter/__init__.py:66-84 | the dictionary the loops build has exactly those keys and name sets, and equals the one-line-at-a-time table |
| Tags.NoOutputNoTags | rplugin/python3/highlighter/__init__.py:68-72 | a failed run, or one that printed nothing, gives the empty table |
| Syntax.ListingOfEnumerates | rplugin/python3/highlighter/__init__.py:98 | when each set is iterated once per element, the listing has the table's kinds and lists each name set exactly |
| Syntax.ClearCommand | rplugin/python3/highlighter/__init__.py:94 | `syntax clear G` is recognised as a clear command, and the group reads back after it |
| Syntax.KeywordCommand | rplugin/python3/highlighter/__init__.py:99-100 | starts with `syntax keyword G `, ends with ` containedin=ALLBUT,I`, and is never read as a clear |
| Syntax.MatchPattern | rplugin/python3/highlighter/__init__.py:103 | the pattern starts with the prefix and `\%(` and ends with `\)` and the suffix |
| Syntax.MatchCommand | rplugin/python3/highlighter/__init__.py:104-105 | starts with `syntax match G /`, ends with `/ containedin=ALLBUT,I`, and is never read as a clear |
| Syntax.KindCommandsInOrder | rplugin/python3/highlighter/__init__.py:95-106 | a rule adds one command per kind of its `tagkinds` present in the table, in `tagkinds` order, each rendered from that kind's names |
| Syntax.RuleWithoutTags | rplugin/python3/highlighter/__init__.py:93-96 | a rule with no kind present contributes only its `syntax clear` |
| Syntax.ClearsOfSyntaxCommands | rplugin/python3/highlighter/__init__.py:93-113 | the clear commands among the update's commands are, in order, exactly one `syntax clear G` per rule, as `make_syntax_clear_commands` produces |
| Syntax.CommandsAreClearsOrHighlights | rplugin/python3/highlighter/__init__.py:93-106 | every command rendered is a clear, or the keyword or match command of one of the rules for one of its kinds present in the table |
| Syntax.NoTagsOnlyClears | rplugin/python3/highlighter/__init__.py:93-107 | with an empty tag table the commands are just the clears, one per rule in order |
| Syntax.KeywordWords | rplugin/python3/highlighter/__init__.py:97-100 | the space-separated words of a keyword command list the kind's names, each exactly once, when no name contains a space |
| Syntax.MatchAlternatives | rplugin/python3/highlighter/__init__.py:101-103 | each alternative of a match pattern unescapes to its name and is well escaped |
| Syntax.MakeSyntaxCommands | rplugin/python3/highlighter/__init__.py:86-107 | the result is the `" | "` join of the rules' commands, rendered against the table ctags printed |
| Syntax.RenderRules | rplugin/python3/highlighter/__init__.py:89-106 | the outer loop produces, rule by rule, the rule's clear followed by its highlights |
| Syntax.RenderKinds | rplugin/python3/highlighter/__init__.py:95-106 | the inner loop produces one keyword or match command per kind of the rule present in the table, in `tagkinds` order |
| Syntax.MakeSyntaxClearCommands | rplugin/python3/highlighter/__init__.py:109-113 | the result is the `" | "` join of one `syntax clear G` per rule, in rule order |
| RootSearch.Dirname | rplugin/python3/highlighter/__init__.py:57 | `os.path.dirname` gives a prefix of the path, empty exactly when the path has no slash |
| RootSearch.DirnameStep | rplugin/python3/highlighter/__init__.py:57-63 | on a path starting with one slash, `dirname` gives such a path again: `/` for `/` and for a file right under `/`, otherwise the immediate parent (a prefix not ending in a slash, followed by one run of slashes and a last component without one); every step from a path other than `/` is strictly shorter |
| RootSearch.AncestorStep | rplugin/python3/highlighter/__init__.py:59-63 | the directories at or above a path other than `/` are the path itself and those at or above its `dirname` |
| RootSearch.RootForIsNearest | rplugin/python3/highlighter/__init__.py:59-63 | the walk for one sign returns a directory at or above the start that holds the sign and no longer such directory holds it; it finds nothing exactly when no directory at or above the start, `/` excluded, holds it |
| RootSearch.FirstRootBySignOrder | rplugin/python3/highlighter/__init__.py:58-63 | the result is that of the first sign, in configured order, whose walk finds anything; nothing is found exactly when no sign's walk finds anything |
| RootSearch.FirstRootOfPrefix | rplugin/python3/highlighter/__init__.py:58-62 | once an earlier sign has found a root, later signs do not change the result |
| RootSearch.ProjectRootIsMarked | rplugin/python3/highlighter/__init__.py:54-64 | with no signs the result is the file name; otherwise it is the file name or a directory other than `/`, at or above the file's directory, that holds a configured sign; and the file name whenever no directory at or above the file's directory holds any sign |
| RootSearch.FindProjectRoot | rplugin/python3/highlighter/__init__.py:54-64 | the loops with their early return compute exactly the sign-ordered, nearest-first search |
| RootSearch.DoubledSlashIsWalked | rplugin/python3/highlighter/__init__.py:57-63 | a doubled slash does not stop the walk: `/a//b.c` is accepted and its directory `/a` has the parent `/` |
| RootSearch.SignOrderBeatsNearness | rplugin/python3/highlighter/__init__.py:58-63 | with `.git` configured before `Makefile`, `/p/q/r.c` gets `/p` (which holds `.git`) rather than `/p/q` (which holds `Makefile`) |
| Plugin.Lang | rplugin/python3/highlighter/__init__.py:36-37 | the language is `c#` for `cs` and the filetype itself for every other filetype |
| Plugin.CppIsNotRemapped | rplugin/python3/highlighter/__init__.py:36-37 | `cpp` is passed as `cpp`, not as `c++` |
| Plugin.CtagsOptions | rplugin/python3/highlighter/__init__.py:38-39 | the options are the configured ones, then `--languages=<lang>`, then the root, with `-R` in front iff the root is a directory (when the configured options do not start with `-R`) |
| Plugin.UpdateCall | rplugin/python3/highlighter/__init__.py:30-43 | nothing is sent exactly when the filetype is empty or is not a key of the configured syntax; otherwise the call carries the project root and the filetype |
| Plugin.UpdateBatch | rplugin/python3/highlighter/__init__.py:41-43 | for a filetype with at least one rule, the batch is the clear list followed by the rules' commands, joined by `" | "`; the clear commands in it are the clear list twice over, and every other command is the keyword or match command of one of the rules for one of its kinds present in the tag table |
| Plugin.EmptyRuleListSendsSeparator | rplugin/python3/highlighter/__init__.py:41-43 | a filetype configured with an empty rule list is not skipped, and its update sends just `" | "` |
| Plugin.FailedCtagsOnlyClears | rplugin/python3/highlighter/__init__.py:68-72 | when ctags fails, the update is still defined and still sends a batch; after the clear prefix, the batch holds only one `syntax clear` per rule |
| Plugin.ClearCall | rplugin/python3/highlighter/__init__.py:48-51 | the clear call carries the filetype and the project root; its commands are empty exactly when the filetype has no rules, and otherwise start with a clear |
| Plugin.ClearIsUpdatePrefix | rplugin/python3/highlighter/__init__.py:41-52 | what a clear sends is exactly the prefix an update of the same buffer starts with, for the same project root and filetype |
| Plugin.Highlighter.constructor | rplugin/python3/highlighter/__init__.py:15-17 | a new plugin object is not started |
| Plugin.Highlighter.InitMembers | rplugin/python3/highlighter/__init__.py:19-24 | the object is started and caches the three configuration globals |
| Plugin.Highlighter.Update | rplugin/python3/highlighter/__init__.py:26-44 | the configuration is loaded on first use and kept afterwards, and the call sent is the one `UpdateCall` describes |
| Plugin.Highlighter.Clear | rplugin/python3/highlighter/__init__.py:46-52 | the call sent is the `" | "` join of the filetype's clear commands, with the project root and the filetype, and the object is left unchanged |

## Left out

- Neovim's RPC (`vim.call`, `vim.eval`, `vim.command`, `vim.current.buffer.name`) and `vim_echo`, which are host I/O. Their values are parameters, and the status message is not modelled.
- The call of `g:highlighter#initialize` in `init_members`. The globals it sets are the `Config` passed in.
- The `@neovim.plugin` and `@neovim.command` registrations, and the unused `args` and `range` parameters.
- `subprocess.check_output` and `.decode()`, which are process I/O. They are the function `run`, and any exception becomes `None`.
- `os.path.exists` and `os.path.isdir`, which are file-system I/O. They are membership in two sets of paths.
- The `re` module. The escaping is specified one character at a time.
- The iteration order of Python sets. It is the `order` parameter, a function of the set's value, so two kinds with equal name sets are listed in the same order. CPython's order can also depend on how each set was built. No proved property depends on the order beyond each set being listed once.
- Lines with fewer than four tab-separated fields. They raise `IndexError` outside the `try` (line 79), so the model requires every ctags line to have four fields.
- Buffer names that are empty, relative or start with `//`, when signs are configured. From such a name `dirname` never reaches `/`: a relative name ends at `""`, where `"" + "/" + sign` is checked over and over, and `dirname("//")` is `//`. So the loop at lines 60-63 ends only if a sign is found on the way (`src/a.c` gets `src` when `src/.git` exists, and `""` when only `/.git` does). Otherwise it never ends: `HighlighterUpdate` in an unnamed buffer hangs whenever `/<sign>` does not exist. The model requires a name starting with exactly one slash; doubled slashes further on are allowed.
- A rule whose `syntax_type` is neither `keyword` nor `match`. The model requires a known type for every rule that has a kind present in the table.
- `clear` before any `update`, which reads attributes that were never set. `Highlighter.Clear` requires the object to be started.
- `clear` for a filetype missing from the configuration, which raises `KeyError`. `Highlighter.Clear` requires the filetype to be a key of the configured syntax.
- Configuration values of unexpected types and rules missing a key. Each rule is a `Rule` datatype whose `tagkinds` is a sequence of kind strings; a string-valued `tagkinds` in the configuration corresponds to its one-character kinds.
- `os.path.dirname` is modelled for POSIX paths only.
- Syntax.KeywordWords: it needs tag names without spaces, because words containing a space cannot be told apart after joining.
