/**
  The plugin object: its configuration cache, the `HighlighterUpdate` and
  `HighlighterClear` commands, and the ctags options an update builds.
  What the editor supplies (the configuration globals, the filetype, the
  buffer's file name) and what it is sent (the arguments of
  `highlighter#update_highlight`) are parameters and results.
 */
module Plugin {
  import opened Wrappers
  import opened Text
  import opened Tags
  import opened Syntax
  import opened RootSearch

  /** The configuration, as the editor's globals read after `highlighter#initialize`. */
  datatype Config = Config(
    projectRootSigns: seq<string>,   // g:highlighter#project_root_signs
    ctagsOptions: seq<string>,       // g:highlighter#ctags_options
    syntax: map<string, seq<Rule>>)  // g:highlighter#syntax

  /** What the file system answers: the paths that exist and those that are directories. */
  datatype FileSystem = FileSystem(existing: set<string>, directories: set<string>)

  /** The arguments of one call of `highlighter#update_highlight`. */
  datatype HighlightCall = HighlightCall(commands: string, proot: string, ftype: string)

  /**
    The ctags language of a filetype. The second assignment replaces the
    first whatever the filetype: `cs` becomes `c#`, and `cpp` stays `cpp`.
   */
  function Lang(ftype: string): (lang: string)
    ensures ftype == "cs" ==> lang == "c#"
    ensures ftype != "cs" ==> lang == ftype
  {
    var remapped := if ftype == "cpp" then "c++" else ftype;
    var lang := if ftype == "cs" then "c#" else ftype;
    lang
  }

  /** The remap of `cpp` to `c++` is lost. */
  lemma CppIsNotRemapped()
    ensures Lang("cpp") == "cpp"
  {
  }

  /**
    The per-update ctags options: the configured ones, the language flag and
    the root, with `-R` in front when the root is a directory.
   */
  function CtagsOptions(configured: seq<string>, ftype: string, proot: string, directories: set<string>)
      : (options: seq<string>)
    ensures |options| == |configured| + 2 + (if proot in directories then 1 else 0)
    ensures options[|options| - 1] == proot
    ensures options[|options| - 2] == "--languages=" + Lang(ftype)
    ensures proot in directories ==> options[0] == "-R" && options[1..|options| - 2] == configured
    ensures proot !in directories ==> options[..|options| - 2] == configured
    ensures (configured == [] || configured[0] != "-R") ==> (options[0] == "-R" <==> proot in directories)
  {
    var options := configured + ["--languages=" + Lang(ftype), proot];
    if proot in directories then ["-R"] + options else options
  }

  /** The update returns at once: no filetype, or one that is not a key of the configured syntax. */
  predicate Skipped(cfg: Config, ftype: string)
  {
    ftype == "" || ftype !in cfg.syntax
  }

  /**
    What an update asks of its inputs, which the plugin does not check: a
    file name starting with exactly one slash when signs are configured (the
    walk up would not end otherwise), ctags lines with at least four fields, and a known syntax
    type for every rule one of whose kinds is present.
   */
  predicate UpdateDefined(cfg: Config, ftype: string, bufferName: string, fs: FileSystem,
                          run: seq<string> -> Option<string>)
  {
    Skipped(cfg, ftype) ||
    ((cfg.projectRootSigns != [] ==> IsAbsolutePath(bufferName)) &&
     var options := UpdateOptions(cfg, ftype, bufferName, fs);
     WellFormedOutput(run(CtagsArgv(options))) &&
     AllRenderable(cfg.syntax[ftype], Kinds(CtagsLines(options, run))))
  }

  /** The ctags options of an update. */
  function UpdateOptions(cfg: Config, ftype: string, bufferName: string, fs: FileSystem): seq<string>
    requires cfg.projectRootSigns != [] ==> IsAbsolutePath(bufferName)
  {
    CtagsOptions(cfg.ctagsOptions, ftype, ProjectRoot(bufferName, cfg.projectRootSigns, fs.existing), fs.directories)
  }

  /** The tag table of an update, each name set in iteration order. */
  function UpdateTags(cfg: Config, ftype: string, bufferName: string, fs: FileSystem,
                      run: seq<string> -> Option<string>, order: set<string> -> seq<string>): (tags: Listing)
    requires UpdateDefined(cfg, ftype, bufferName, fs, run) && !Skipped(cfg, ftype)
    ensures AllRenderable(cfg.syntax[ftype], tags.Keys)
  {
    var lines := CtagsLines(UpdateOptions(cfg, ftype, bufferName, fs), run);
    TagsDataMeaning(lines);
    ListingOf(TagsData(lines), order)
  }

  /** The command list of an update after its clear prefix. */
  function UpdateCommandList(cfg: Config, ftype: string, bufferName: string, fs: FileSystem,
                             run: seq<string> -> Option<string>, order: set<string> -> seq<string>): seq<string>
    requires UpdateDefined(cfg, ftype, bufferName, fs, run) && !Skipped(cfg, ftype)
  {
    SyntaxCommandList(cfg.syntax[ftype], UpdateTags(cfg, ftype, bufferName, fs, run, order))
  }

  /**
    What `HighlighterUpdate` sends: nothing for a skipped filetype, else the
    clear commands, `" | "`, and the rendered commands, with the root and
    the filetype.
   */
  function UpdateCall(cfg: Config, ftype: string, bufferName: string, fs: FileSystem,
                      run: seq<string> -> Option<string>, order: set<string> -> seq<string>)
      : (call: Option<HighlightCall>)
    requires UpdateDefined(cfg, ftype, bufferName, fs, run)
    ensures call.None? <==> Skipped(cfg, ftype)
    ensures call.Some? ==>
      call.value.ftype == ftype &&
      call.value.proot == ProjectRoot(bufferName, cfg.projectRootSigns, fs.existing)
  {
    if Skipped(cfg, ftype) then None
    else
      var rules := cfg.syntax[ftype];
      Some(HighlightCall(
        Join(ClearCommandList(rules), " | ") + " | " +
        Join(UpdateCommandList(cfg, ftype, bufferName, fs, run, order), " | "),
        ProjectRoot(bufferName, cfg.projectRootSigns, fs.existing),
        ftype))
  }

  /**
    The batch of an update with rules is one `" | "`-joined list: every
    group cleared, then the rules' commands; its clears are the clear list
    twice over, every other command is a highlight.
   */
  lemma UpdateBatch(cfg: Config, ftype: string, bufferName: string, fs: FileSystem,
                    run: seq<string> -> Option<string>, order: set<string> -> seq<string>)
    requires UpdateDefined(cfg, ftype, bufferName, fs, run) && !Skipped(cfg, ftype)
    requires cfg.syntax[ftype] != []
    ensures UpdateCall(cfg, ftype, bufferName, fs, run, order).value.commands ==
      Join(ClearCommandList(cfg.syntax[ftype]) + UpdateCommandList(cfg, ftype, bufferName, fs, run, order), " | ")
    ensures Clears(ClearCommandList(cfg.syntax[ftype]) + UpdateCommandList(cfg, ftype, bufferName, fs, run, order)) ==
      ClearCommandList(cfg.syntax[ftype]) + ClearCommandList(cfg.syntax[ftype])
    ensures var commands := UpdateCommandList(cfg, ftype, bufferName, fs, run, order);
      forall n :: 0 <= n < |commands| ==>
        IsClearCommand(commands[n]) ||
        IsHighlightOf(commands[n], cfg.syntax[ftype], UpdateTags(cfg, ftype, bufferName, fs, run, order))
  {
    var rules := cfg.syntax[ftype];
    var tags := UpdateTags(cfg, ftype, bufferName, fs, run, order);
    var clears := ClearCommandList(rules);
    var commands := UpdateCommandList(cfg, ftype, bufferName, fs, run, order);
    assert SyntaxCommandList(rules, tags) ==
      SyntaxCommandList(rules[..|rules| - 1], tags) + RuleCommands(rules[|rules| - 1], tags);
    assert commands != [];
    JoinAppend(clears, commands, " | ");
    ClearsAppend(clears, commands);
    ClearsOfSyntaxCommands(rules, tags);
    ClearsOfClearList(rules);
    CommandsAreClearsOrHighlights(rules, tags);
  }

  /** A filetype configured with no rules is not skipped: its update sends the bare separator. */
  lemma EmptyRuleListSendsSeparator(cfg: Config, ftype: string, bufferName: string, fs: FileSystem,
                                    run: seq<string> -> Option<string>, order: set<string> -> seq<string>)
    requires UpdateDefined(cfg, ftype, bufferName, fs, run) && !Skipped(cfg, ftype)
    requires cfg.syntax[ftype] == []
    ensures UpdateCall(cfg, ftype, bufferName, fs, run, order).value.commands == " | "
  {
    assert ClearCommandList(cfg.syntax[ftype]) == [];
  }

  /** A clear list is all clears. */
  lemma {:induction false} ClearsOfClearList(rules: seq<Rule>)
    ensures Clears(ClearCommandList(rules)) == ClearCommandList(rules)
  {
    if rules != [] {
      var n := |rules|;
      var front := ClearCommandList(rules[..n - 1]);
      ClearsOfClearList(rules[..n - 1]);
      assert ClearCommandList(rules) == front + [ClearCommand(rules[n - 1].hlgroup)];
      ClearsAppend(front, [ClearCommand(rules[n - 1].hlgroup)]);
      assert Clears([ClearCommand(rules[n - 1].hlgroup)]) == Clears([]) + [ClearCommand(rules[n - 1].hlgroup)];
    }
  }

  /** When ctags fails, an update still completes and sends only clear commands. */
  lemma FailedCtagsOnlyClears(cfg: Config, ftype: string, bufferName: string, fs: FileSystem,
                              run: seq<string> -> Option<string>, order: set<string> -> seq<string>)
    requires forall argv :: run(argv) == None
    requires !Skipped(cfg, ftype)
    requires cfg.projectRootSigns != [] ==> IsAbsolutePath(bufferName)
    ensures UpdateDefined(cfg, ftype, bufferName, fs, run)
    ensures UpdateCall(cfg, ftype, bufferName, fs, run, order).Some?
    ensures UpdateCommandList(cfg, ftype, bufferName, fs, run, order) == ClearCommandList(cfg.syntax[ftype])
  {
    var options := UpdateOptions(cfg, ftype, bufferName, fs);
    assert run(CtagsArgv(options)) == None;
    assert CtagsLines(options, run) == [];
    assert UpdateTags(cfg, ftype, bufferName, fs, run, order) == map[];
    NoTagsOnlyClears(cfg.syntax[ftype]);
  }

  /** What `HighlighterClear` sends: the clear commands, the root and the filetype. */
  function ClearCall(cfg: Config, ftype: string, bufferName: string, fs: FileSystem): (call: HighlightCall)
    requires ftype in cfg.syntax
    requires cfg.projectRootSigns != [] ==> IsAbsolutePath(bufferName)
    ensures call.ftype == ftype && call.proot == ProjectRoot(bufferName, cfg.projectRootSigns, fs.existing)
    ensures cfg.syntax[ftype] == [] <==> call.commands == ""
    ensures cfg.syntax[ftype] != [] ==> IsClearCommand(call.commands)
  {
    HighlightCall(
      Join(ClearCommandList(cfg.syntax[ftype]), " | "),
      ProjectRoot(bufferName, cfg.projectRootSigns, fs.existing),
      ftype)
  }

  /**
    A clear sends exactly the prefix an update of the same buffer starts
    with, for the same root and filetype.
   */
  lemma ClearIsUpdatePrefix(cfg: Config, ftype: string, bufferName: string, fs: FileSystem,
                            run: seq<string> -> Option<string>, order: set<string> -> seq<string>)
    requires UpdateDefined(cfg, ftype, bufferName, fs, run) && !Skipped(cfg, ftype)
    ensures UpdateCall(cfg, ftype, bufferName, fs, run, order).value.commands ==
      ClearCall(cfg, ftype, bufferName, fs).commands + " | " +
      Join(UpdateCommandList(cfg, ftype, bufferName, fs, run, order), " | ")
    ensures UpdateCall(cfg, ftype, bufferName, fs, run, order).value.proot == ClearCall(cfg, ftype, bufferName, fs).proot
    ensures UpdateCall(cfg, ftype, bufferName, fs, run, order).value.ftype == ClearCall(cfg, ftype, bufferName, fs).ftype
  {
  }

  /** The plugin object: started or not, and the configuration it cached when it started. */
  class Highlighter {
    var isStarted: bool
    var projectRootSigns: seq<string>
    var ctagsOptions: seq<string>
    var syntax: map<string, seq<Rule>>

    /** The cached configuration. */
    function Settings(): Config
      reads this
    {
      Config(projectRootSigns, ctagsOptions, syntax)
    }

    /** A plugin not yet started; the configuration fields hold nothing yet. */
    constructor ()
      ensures !isStarted
    {
      isStarted := false;
      projectRootSigns, ctagsOptions, syntax := [], [], map[];
    }

    /** `init_members`: marks the plugin started and caches the configuration globals. */
    method InitMembers(globals: Config)
      modifies this
      ensures isStarted && Settings() == globals
    {
      isStarted := true;
      projectRootSigns := globals.projectRootSigns;
      ctagsOptions := globals.ctagsOptions;
      syntax := globals.syntax;
    }

    /**
      `HighlighterUpdate`: starts the plugin on first use (later uses keep
      the cached configuration); returns at once for a skipped filetype;
      otherwise finds the root, builds the ctags options, renders the
      rules and sends clear commands, `" | "`, and the rendered commands.
     */
    method Update(globals: Config, ftype: string, bufferName: string, fs: FileSystem,
                  run: seq<string> -> Option<string>, order: set<string> -> seq<string>)
        returns (call: Option<HighlightCall>)
      requires UpdateDefined(if isStarted then Settings() else globals, ftype, bufferName, fs, run)
      modifies this
      ensures isStarted
      ensures Settings() == if old(isStarted) then old(Settings()) else globals
      ensures call == UpdateCall(Settings(), ftype, bufferName, fs, run, order)
    {
      if !isStarted {
        InitMembers(globals);
      }
      if ftype == "" || ftype !in syntax {
        return None;
      }
      var proot := FindProjectRoot(bufferName, projectRootSigns, fs.existing);
      var options := CtagsOptions(ctagsOptions, ftype, proot, fs.directories);
      var commands := MakeSyntaxCommands(options, syntax[ftype], run, order);
      var clearCommands := MakeSyntaxClearCommands(syntax[ftype]);
      call := Some(HighlightCall(clearCommands + " | " + commands, proot, ftype));
    }

    /**
      `HighlighterClear`: sends the clear commands of the filetype, with the
      root; ctags is not run.
     */
    method Clear(ftype: string, bufferName: string, fs: FileSystem) returns (call: HighlightCall)
      requires isStarted
      requires ftype in syntax
      requires projectRootSigns != [] ==> IsAbsolutePath(bufferName)
      ensures call == ClearCall(Settings(), ftype, bufferName, fs)
    {
      var proot := FindProjectRoot(bufferName, projectRootSigns, fs.existing);
      var clearCommands := MakeSyntaxClearCommands(syntax[ftype]);
      call := HighlightCall(clearCommands, proot, ftype);
    }
  }
}
