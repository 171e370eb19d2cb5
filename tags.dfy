/**
  Running ctags and grouping its table by tag kind (`make_tags_data`).
  The process itself is a parameter: `run` maps an argument vector to what
  the process printed on standard output, or to `None` when starting it,
  its exit status or the decoding of its output failed.
 */
module Tags {
  import opened Wrappers
  import opened Text

  /** The fixed head of every ctags command line: table to stdout, unsorted, line numbers as excmd. */
  const CtagsHead: seq<string> := ["ctags", "-f", "-", "--sort=no", "--excmd=number"]

  /** The argument vector the plugin runs: the fixed head, then the per-update options. */
  function CtagsArgv(options: seq<string>): (argv: seq<string>)
    ensures |argv| == |options| + 5
    ensures argv[0] == "ctags" && argv[1] == "-f" && argv[2] == "-"
    ensures argv[3] == "--sort=no" && argv[4] == "--excmd=number"
    ensures argv[5..] == options
  {
    CtagsHead + options
  }

  /**
    The lines of the output: split at every newline and the last piece
    dropped (the empty piece after the final newline). A failed run gives
    no lines.
   */
  function OutputLines(out: Option<string>): (lines: seq<string>)
    ensures out.None? ==> lines == []
    ensures out.Some? ==> |lines| == Count(out.value, '\n')
    ensures NoneContains(lines, '\n')
  {
    match out
    case None => []
    case Some(text) =>
      var pieces := Split(text, '\n');
      pieces[..|pieces| - 1]
  }

  /** The lines of the output of one ctags run. */
  function CtagsLines(options: seq<string>, run: seq<string> -> Option<string>): seq<string>
  {
    OutputLines(run(CtagsArgv(options)))
  }

  /** Lines terminated by a newline each, as ctags prints its table. */
  function Unlines(lines: seq<string>): string
  {
    if lines == [] then "" else lines[0] + "\n" + Unlines(lines[1..])
  }

  lemma {:induction false} SplitUnlines(lines: seq<string>, tail: string)
    requires NoneContains(lines, '\n')
    requires '\n' !in tail
    ensures Split(Unlines(lines) + tail, '\n') == lines + [tail]
  {
    if lines == [] {
      assert Unlines(lines) + tail == tail;
      SplitNoSeparator(tail, '\n');
    } else {
      SplitUnlines(lines[1..], tail);
      assert Unlines(lines) + tail == lines[0] + ['\n'] + (Unlines(lines[1..]) + tail);
      SplitAtFirst(lines[0], Unlines(lines[1..]) + tail, '\n');
      assert [lines[0]] + lines[1..] == lines;
    }
  }

  /**
    A table of newline-terminated lines parses back to those lines; an
    unterminated last piece is dropped, as `lines.pop()` does.
   */
  lemma OutputLinesOfTable(lines: seq<string>, tail: string)
    requires NoneContains(lines, '\n')
    requires '\n' !in tail
    ensures OutputLines(Some(Unlines(lines) + tail)) == lines
  {
    SplitUnlines(lines, tail);
    assert (lines + [tail])[..|lines|] == lines;
  }

  /** A line with at least four tab-separated fields (name, file, address, kind). */
  predicate WellFormedLine(line: string)
  {
    |Split(line, '\t')| >= 4
  }

  predicate AllWellFormed(lines: seq<string>)
  {
    forall i :: 0 <= i < |lines| ==> WellFormedLine(lines[i])
  }

  /** The tag name: the first field. */
  function Name(line: string): string
    requires WellFormedLine(line)
  {
    Split(line, '\t')[0]
  }

  /** The tag kind: the fourth field. */
  function Kind(line: string): string
    requires WellFormedLine(line)
  {
    Split(line, '\t')[3]
  }

  /** The kinds that occur in the lines. */
  function Kinds(lines: seq<string>): set<string>
    requires AllWellFormed(lines)
  {
    set i | 0 <= i < |lines| :: Kind(lines[i])
  }

  /** The names of the lines of kind `k`. */
  function NamesOfKind(lines: seq<string>, k: string): set<string>
    requires AllWellFormed(lines)
  {
    set i | 0 <= i < |lines| && Kind(lines[i]) == k :: Name(lines[i])
  }

  /** The tag table built one line at a time: each line adds its name to its kind's set. */
  function TagsData(lines: seq<string>): map<string, set<string>>
    requires AllWellFormed(lines)
  {
    if lines == [] then map[]
    else
      var tags := TagsData(lines[..|lines| - 1]);
      var line := lines[|lines| - 1];
      var k := Kind(line);
      tags[k := (if k in tags then tags[k] else {}) + {Name(line)}]
  }

  /** The kinds of a list with one more line. */
  lemma KindsSnoc(lines: seq<string>)
    requires lines != [] && AllWellFormed(lines)
    ensures AllWellFormed(lines[..|lines| - 1])
    ensures Kinds(lines) == Kinds(lines[..|lines| - 1]) + {Kind(lines[|lines| - 1])}
  {
    var n := |lines|;
    var prefix := lines[..n - 1];
    assert forall i :: 0 <= i < n - 1 ==> prefix[i] == lines[i];
    forall k | k in Kinds(lines) ensures k in Kinds(prefix) + {Kind(lines[n - 1])} {
      var i :| 0 <= i < n && Kind(lines[i]) == k;
      if i < n - 1 { assert Kind(prefix[i]) == k; }
    }
    forall k | k in Kinds(prefix) ensures k in Kinds(lines) {
      var i :| 0 <= i < n - 1 && Kind(prefix[i]) == k;
      assert Kind(lines[i]) == k;
    }
  }

  /** The names of one kind in a list with one more line. */
  lemma NamesOfKindSnoc(lines: seq<string>, k: string)
    requires lines != [] && AllWellFormed(lines)
    ensures AllWellFormed(lines[..|lines| - 1])
    ensures NamesOfKind(lines, k) ==
      NamesOfKind(lines[..|lines| - 1], k) +
      (if Kind(lines[|lines| - 1]) == k then {Name(lines[|lines| - 1])} else {})
  {
    var n := |lines|;
    var prefix := lines[..n - 1];
    var extra: set<string> := if Kind(lines[n - 1]) == k then {Name(lines[n - 1])} else {};
    assert forall i :: 0 <= i < n - 1 ==> prefix[i] == lines[i];
    forall x | x in NamesOfKind(lines, k) ensures x in NamesOfKind(prefix, k) + extra {
      var i :| 0 <= i < n && Kind(lines[i]) == k && Name(lines[i]) == x;
      if i < n - 1 { assert Kind(prefix[i]) == k && Name(prefix[i]) == x; }
    }
    forall x | x in NamesOfKind(prefix, k) ensures x in NamesOfKind(lines, k) {
      var i :| 0 <= i < n - 1 && Kind(prefix[i]) == k && Name(prefix[i]) == x;
      assert Kind(lines[i]) == k && Name(lines[i]) == x;
    }
  }

  /** A kind that does not occur has no names. */
  lemma NamesOfAbsentKind(lines: seq<string>, k: string)
    requires AllWellFormed(lines) && k !in Kinds(lines)
    ensures NamesOfKind(lines, k) == {}
  {
    forall i | 0 <= i < |lines| ensures Kind(lines[i]) != k {
      assert Kind(lines[i]) in Kinds(lines);
    }
  }

  /**
    The keys of the table are exactly the kinds of the lines, and each kind
    maps to exactly the names of the lines of that kind.
   */
  lemma {:induction false} TagsDataMeaning(lines: seq<string>)
    requires AllWellFormed(lines)
    ensures TagsData(lines).Keys == Kinds(lines)
    ensures forall k :: k in TagsData(lines) ==> TagsData(lines)[k] == NamesOfKind(lines, k)
  {
    if lines != [] {
      var prefix := lines[..|lines| - 1];
      KindsSnoc(lines);
      TagsDataMeaning(prefix);
      forall k | k in TagsData(lines) ensures TagsData(lines)[k] == NamesOfKind(lines, k) {
        NamesOfKindSnoc(lines, k);
        if k !in TagsData(prefix) {
          NamesOfAbsentKind(prefix, k);
        }
      }
    }
  }

  /** The ctags output of every run is a table of well-formed lines. */
  predicate WellFormedOutput(out: Option<string>)
  {
    AllWellFormed(OutputLines(out))
  }

  /**
    `make_tags_data`: runs ctags, collects the first and fourth field of each
    line into two lists, then fills a dictionary from each distinct kind to
    the set of names listed with it.
   */
  method MakeTagsData(options: seq<string>, run: seq<string> -> Option<string>)
      returns (tags: map<string, set<string>>)
    requires WellFormedOutput(run(CtagsArgv(options)))
    ensures tags.Keys == Kinds(CtagsLines(options, run))
    ensures forall k :: k in tags ==> tags[k] == NamesOfKind(CtagsLines(options, run), k)
    ensures tags == TagsData(CtagsLines(options, run))
  {
    var lines := OutputLines(run(CtagsArgv(options)));
    var names: seq<string> := [];
    var kinds: seq<string> := [];
    for i := 0 to |lines|
      invariant |names| == i && |kinds| == i
      invariant forall j :: 0 <= j < i ==> names[j] == Name(lines[j]) && kinds[j] == Kind(lines[j])
    {
      var entries := Split(lines[i], '\t');
      names := names + [entries[0]];
      kinds := kinds + [entries[3]];
    }
    tags := map[];
    var pending := set j | 0 <= j < |kinds| :: kinds[j];
    ghost var distinct := pending;
    while pending != {}
      invariant pending <= distinct
      invariant tags.Keys == distinct - pending
      invariant forall k :: k in tags ==> tags[k] == set j | 0 <= j < |kinds| && kinds[j] == k :: names[j]
      decreases pending
    {
      var k :| k in pending;
      tags := tags[k := set j | 0 <= j < |kinds| && kinds[j] == k :: names[j]];
      pending := pending - {k};
    }
    assert distinct == Kinds(lines);
    forall k | k in tags ensures tags[k] == NamesOfKind(lines, k) {
      assert tags[k] == set j | 0 <= j < |kinds| && kinds[j] == k :: names[j];
    }
    TagsDataMeaning(lines);
  }

  /** A failed ctags run, or one that printed nothing, gives the empty table. */
  lemma NoOutputNoTags(out: Option<string>)
    requires out == None || out == Some("")
    ensures TagsData(OutputLines(out)) == map[]
  {
  }
}
