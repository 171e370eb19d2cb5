/**
  Rendering the highlight rules of a filetype into Vim syntax commands
  (`make_syntax_commands`, `make_syntax_clear_commands`).
 */
module Syntax {
  import opened Wrappers
  import opened Text
  import opened Escape
  import opened Tags

  /** One entry of a filetype's list in `g:highlighter#syntax`. */
  datatype Rule = Rule(
    hlgroup: string,         // the highlight group the rule fills
    tagkinds: seq<string>,   // the ctags kinds it applies to, in configured order
    syntaxType: string,      // "keyword" or "match"
    prefix: string,          // syntax_prefix, put before the alternation in match mode
    suffix: string,          // syntax_suffix, put after it
    ignore: string)          // syntax_ignore, the groups after ALLBUT

  /**
    The tag table as the renderer reads it: each kind with its set of names
    listed in the order Python happens to iterate that set.
   */
  type Listing = map<string, seq<string>>

  /** `xs` lists every element of `s` exactly once. */
  predicate Enumerates(xs: seq<string>, s: set<string>)
  {
    && (forall i, j :: 0 <= i < j < |xs| ==> xs[i] != xs[j])
    && (forall i :: 0 <= i < |xs| ==> xs[i] in s)
    && (forall x :: x in s ==> x in xs)
  }

  /** The listing of a tag table when each set is iterated as `order` says. */
  function ListingOf(tags: map<string, set<string>>, order: set<string> -> seq<string>): Listing
  {
    map k | k in tags :: order(tags[k])
  }

  /** When `order` enumerates every set, the listing has the table's kinds and lists each set once. */
  lemma ListingOfEnumerates(tags: map<string, set<string>>, order: set<string> -> seq<string>)
    requires forall s :: Enumerates(order(s), s)
    ensures ListingOf(tags, order).Keys == tags.Keys
    ensures forall k :: k in tags ==> Enumerates(ListingOf(tags, order)[k], tags[k])
  {
  }

  /** `syntax clear G`: recognised as a clear, and the group reads back after the keyword. */
  function ClearCommand(group: string): (c: string)
    ensures IsClearCommand(c) && c[13..] == group
  {
    "syntax clear " + group
  }

  /**
    `syntax keyword G names containedin=ALLBUT,I`: never read as a clear; it
    names the group right after the keyword and ends with the ignored groups.
   */
  function KeywordCommand(group: string, names: seq<string>, ignore: string): (c: string)
    ensures !IsClearCommand(c)
    ensures |c| >= 16 + |group| && c[..16 + |group|] == "syntax keyword " + group + " "
    ensures var tail := " containedin=ALLBUT," + ignore; |tail| <= |c| && c[|c| - |tail|..] == tail
  {
    var c := "syntax keyword " + group + " " + Join(names, " ") + " containedin=ALLBUT," + ignore;
    assert c[7] == 'k';
    c
  }

  /**
    The pattern of a match rule: prefix, the escaped names as one `\%(...\)`
    alternation, suffix; the alternation is bracketed by the prefix and the
    suffix.
   */
  function MatchPattern(prefix: string, names: seq<string>, suffix: string): (pattern: string)
    ensures |pattern| >= |prefix| + 5 + |suffix|
    ensures pattern[..|prefix| + 3] == prefix + "\\%("
    ensures pattern[|pattern| - |suffix| - 2..] == "\\)" + suffix
  {
    prefix + "\\%(" + Join(EscapeAll(names), "\\|") + "\\)" + suffix
  }

  /**
    `syntax match G /pattern/ containedin=ALLBUT,I`: never read as a clear;
    it names the group and ends with the ignored groups.
   */
  function MatchCommand(group: string, pattern: string, ignore: string): (c: string)
    ensures !IsClearCommand(c)
    ensures |c| >= 15 + |group| && c[..15 + |group|] == "syntax match " + group + " /"
    ensures var tail := "/ containedin=ALLBUT," + ignore; |tail| <= |c| && c[|c| - |tail|..] == tail
  {
    var c := "syntax match " + group + " /" + pattern + "/ containedin=ALLBUT," + ignore;
    assert c[7] == 'm';
    c
  }

  predicate KnownType(syntaxType: string)
  {
    syntaxType == "keyword" || syntaxType == "match"
  }

  /** The command a rule adds for one kind present in the table, whose names are `names`. */
  function KindCommand(rule: Rule, names: seq<string>): string
    requires KnownType(rule.syntaxType)
  {
    if rule.syntaxType == "keyword" then KeywordCommand(rule.hlgroup, names, rule.ignore)
    else MatchCommand(rule.hlgroup, MatchPattern(rule.prefix, names, rule.suffix), rule.ignore)
  }

  /**
    The plugin can render `kinds` of `rule` against a table with kinds
    `present`: the rule has a known syntax type, or none of those kinds is
    present (an unknown type is only looked at for a present kind).
   */
  predicate RenderableKinds(rule: Rule, kinds: seq<string>, present: set<string>)
  {
    KnownType(rule.syntaxType) || forall j :: 0 <= j < |kinds| ==> kinds[j] !in present
  }

  predicate AllRenderable(rules: seq<Rule>, present: set<string>)
  {
    forall i :: 0 <= i < |rules| ==> RenderableKinds(rules[i], rules[i].tagkinds, present)
  }

  /** The commands a rule adds for `kinds`: one per kind present in the table, in the order of `kinds`. */
  function KindCommands(rule: Rule, kinds: seq<string>, tags: Listing): seq<string>
    requires RenderableKinds(rule, kinds, tags.Keys)
  {
    if kinds == [] then []
    else
      var key := kinds[|kinds| - 1];
      KindCommands(rule, kinds[..|kinds| - 1], tags) +
      (if key in tags then [KindCommand(rule, tags[key])] else [])
  }

  /** The commands of one rule: its clear, then its highlights. */
  function RuleCommands(rule: Rule, tags: Listing): seq<string>
    requires RenderableKinds(rule, rule.tagkinds, tags.Keys)
  {
    [ClearCommand(rule.hlgroup)] + KindCommands(rule, rule.tagkinds, tags)
  }

  /** The commands of all rules, rule after rule in configured order. */
  function SyntaxCommandList(rules: seq<Rule>, tags: Listing): seq<string>
    requires AllRenderable(rules, tags.Keys)
  {
    if rules == [] then []
    else SyntaxCommandList(rules[..|rules| - 1], tags) + RuleCommands(rules[|rules| - 1], tags)
  }

  /** One clear per rule, in configured order. */
  function ClearCommandList(rules: seq<Rule>): seq<string>
  {
    seq(|rules|, i requires 0 <= i < |rules| => ClearCommand(rules[i].hlgroup))
  }

  /** The kinds of `kinds` present in the table, in order. */
  function Present(kinds: seq<string>, tags: Listing): (r: seq<string>)
    ensures forall i :: 0 <= i < |r| ==> r[i] in tags && r[i] in kinds
  {
    if kinds == [] then []
    else
      var key := kinds[|kinds| - 1];
      Present(kinds[..|kinds| - 1], tags) + (if key in tags then [key] else [])
  }

  /**
    A rule adds exactly one command per kind of its list present in the
    table, in the order of the list, each rendered from that kind's names.
   */
  lemma {:induction false} KindCommandsInOrder(rule: Rule, kinds: seq<string>, tags: Listing)
    requires RenderableKinds(rule, kinds, tags.Keys)
    ensures |KindCommands(rule, kinds, tags)| == |Present(kinds, tags)|
    ensures Present(kinds, tags) != [] ==> KnownType(rule.syntaxType)
    ensures forall i :: 0 <= i < |Present(kinds, tags)| ==>
      KnownType(rule.syntaxType) &&
      KindCommands(rule, kinds, tags)[i] == KindCommand(rule, tags[Present(kinds, tags)[i]])
  {
    if kinds != [] {
      var key := kinds[|kinds| - 1];
      assert RenderableKinds(rule, kinds[..|kinds| - 1], tags.Keys);
      KindCommandsInOrder(rule, kinds[..|kinds| - 1], tags);
    }
  }

  /** A rule none of whose kinds is present adds only its clear. */
  lemma {:induction false} RuleWithoutTags(rule: Rule, tags: Listing)
    requires forall j :: 0 <= j < |rule.tagkinds| ==> rule.tagkinds[j] !in tags
    ensures RuleCommands(rule, tags) == [ClearCommand(rule.hlgroup)]
  {
    NoKindCommands(rule, rule.tagkinds, tags);
  }

  lemma {:induction false} NoKindCommands(rule: Rule, kinds: seq<string>, tags: Listing)
    requires forall j :: 0 <= j < |kinds| ==> kinds[j] !in tags
    ensures KindCommands(rule, kinds, tags) == []
  {
    if kinds != [] {
      NoKindCommands(rule, kinds[..|kinds| - 1], tags);
    }
  }

  /** The command starts by clearing a group. */
  predicate IsClearCommand(command: string)
  {
    |command| >= 13 && command[..13] == "syntax clear "
  }

  /** The clear commands of a list, in order. */
  function Clears(commands: seq<string>): seq<string>
  {
    if commands == [] then []
    else
      var last := commands[|commands| - 1];
      Clears(commands[..|commands| - 1]) + (if IsClearCommand(last) then [last] else [])
  }

  lemma {:induction false} ClearsAppend(a: seq<string>, b: seq<string>)
    ensures Clears(a + b) == Clears(a) + Clears(b)
  {
    if b == [] {
      assert a + b == a;
    } else {
      assert (a + b)[..|a + b| - 1] == a + b[..|b| - 1];
      ClearsAppend(a, b[..|b| - 1]);
    }
  }

  /** A highlight command is never a clear command. */
  lemma KindCommandIsNotClear(rule: Rule, names: seq<string>)
    requires KnownType(rule.syntaxType)
    ensures !IsClearCommand(KindCommand(rule, names))
  {
    var c := KindCommand(rule, names);
    if |c| >= 13 {
      if rule.syntaxType == "keyword" {
        assert c[7] == 'k';
      } else {
        assert c[7] == 'm';
      }
      assert c[..13][7] != "syntax clear "[7];
    }
  }

  lemma {:induction false} KindCommandsHaveNoClears(rule: Rule, kinds: seq<string>, tags: Listing)
    requires RenderableKinds(rule, kinds, tags.Keys)
    ensures Clears(KindCommands(rule, kinds, tags)) == []
  {
    if kinds != [] {
      var key := kinds[|kinds| - 1];
      var front := KindCommands(rule, kinds[..|kinds| - 1], tags);
      var back := if key in tags then [KindCommand(rule, tags[key])] else [];
      KindCommandsHaveNoClears(rule, kinds[..|kinds| - 1], tags);
      ClearsAppend(front, back);
      if key in tags {
        KindCommandIsNotClear(rule, tags[key]);
        assert Clears(back) == Clears([]) + [];
      }
    }
  }

  /**
    The clear commands of an update, in order, are exactly the commands
    of a clear: one per rule, in configured order, whatever the tag table.
   */
  lemma {:induction false} ClearsOfSyntaxCommands(rules: seq<Rule>, tags: Listing)
    requires AllRenderable(rules, tags.Keys)
    ensures Clears(SyntaxCommandList(rules, tags)) == ClearCommandList(rules)
  {
    if rules != [] {
      var n := |rules|;
      var rule := rules[n - 1];
      assert AllRenderable(rules[..n - 1], tags.Keys);
      ClearsOfSyntaxCommands(rules[..n - 1], tags);
      var clear := [ClearCommand(rule.hlgroup)];
      ClearsAppend(SyntaxCommandList(rules[..n - 1], tags), RuleCommands(rule, tags));
      ClearsAppend(clear, KindCommands(rule, rule.tagkinds, tags));
      KindCommandsHaveNoClears(rule, rule.tagkinds, tags);
      assert Clears(clear) == Clears([]) + clear;
      assert ClearCommandList(rules) == ClearCommandList(rules[..n - 1]) + clear;
    }
  }

  /** `c` is the highlight one of `rules` adds for one of its kinds present in the table. */
  predicate IsHighlightOf(c: string, rules: seq<Rule>, tags: Listing)
  {
    exists i, k :: 0 <= i < |rules| && k in rules[i].tagkinds && k in tags &&
      KnownType(rules[i].syntaxType) && c == KindCommand(rules[i], tags[k])
  }

  /**
    Every command of an update is a clear or the keyword or match command
    of one of the rules for one of its kinds present in the table.
   */
  lemma {:induction false} CommandsAreClearsOrHighlights(rules: seq<Rule>, tags: Listing)
    requires AllRenderable(rules, tags.Keys)
    ensures forall n :: 0 <= n < |SyntaxCommandList(rules, tags)| ==>
      IsClearCommand(SyntaxCommandList(rules, tags)[n]) || IsHighlightOf(SyntaxCommandList(rules, tags)[n], rules, tags)
  {
    if rules != [] {
      var m := |rules|;
      var front, rule := rules[..m - 1], rules[m - 1];
      assert AllRenderable(front, tags.Keys);
      CommandsAreClearsOrHighlights(front, tags);
      var all := SyntaxCommandList(rules, tags);
      var earlier := SyntaxCommandList(front, tags);
      var highlights := KindCommands(rule, rule.tagkinds, tags);
      assert all == earlier + ([ClearCommand(rule.hlgroup)] + highlights);
      KindCommandsInOrder(rule, rule.tagkinds, tags);
      forall n | 0 <= n < |all| ensures IsClearCommand(all[n]) || IsHighlightOf(all[n], rules, tags) {
        if n < |earlier| {
          assert all[n] == earlier[n];
          if !IsClearCommand(earlier[n]) {
            var i, k :| 0 <= i < |front| && k in front[i].tagkinds && k in tags &&
              KnownType(front[i].syntaxType) && earlier[n] == KindCommand(front[i], tags[k]);
            assert front[i] == rules[i];
          }
        } else if n == |earlier| {
          assert all[n] == ClearCommand(rule.hlgroup);
          assert all[n][..13] == "syntax clear ";
        } else {
          var j := n - |earlier| - 1;
          var k := Present(rule.tagkinds, tags)[j];
          assert all[n] == highlights[j];
          assert all[n] == KindCommand(rules[m - 1], tags[k]);
        }
      }
    }
  }

  /** Against an empty table every rule contributes its clear and nothing else. */
  lemma {:induction false} NoTagsOnlyClears(rules: seq<Rule>)
    ensures SyntaxCommandList(rules, map[]) == ClearCommandList(rules)
  {
    if rules != [] {
      var n := |rules|;
      NoTagsOnlyClears(rules[..n - 1]);
      RuleWithoutTags(rules[n - 1], map[]);
      assert ClearCommandList(rules) == ClearCommandList(rules[..n - 1]) + [ClearCommand(rules[n - 1].hlgroup)];
    }
  }

  /**
    The space-separated words of a keyword command are the names of the
    kind, each exactly once, provided no name contains a space.
   */
  lemma KeywordWords(names: seq<string>, s: set<string>)
    requires Enumerates(names, s) && s != {}
    requires NoneContains(names, ' ')
    ensures Enumerates(Split(Join(names, " "), ' '), s)
  {
    var x :| x in s;
    assert x in names;
    SplitJoin(names, ' ');
  }

  /** The escaped names of a match pattern undo to the names, and each is a literal for Vim. */
  lemma MatchAlternatives(names: seq<string>)
    ensures forall i :: 0 <= i < |names| ==>
      Unescape(EscapeAll(names)[i]) == names[i] && WellEscaped(EscapeAll(names)[i])
  {
    forall i | 0 <= i < |names|
      ensures Unescape(EscapeAll(names)[i]) == names[i] && WellEscaped(EscapeAll(names)[i])
    {
      UnescapeEscape(names[i]);
      EscapeWellEscaped(names[i]);
    }
  }

  /**
    `make_syntax_commands`: runs ctags, then renders the rules against the
    table it printed; the commands are joined by `" | "`.
   */
  method MakeSyntaxCommands(options: seq<string>, rules: seq<Rule>,
                            run: seq<string> -> Option<string>, order: set<string> -> seq<string>)
      returns (commandText: string)
    requires WellFormedOutput(run(CtagsArgv(options)))
    requires AllRenderable(rules, Kinds(CtagsLines(options, run)))
    ensures TagsData(CtagsLines(options, run)).Keys == Kinds(CtagsLines(options, run))
    ensures commandText ==
      Join(SyntaxCommandList(rules, ListingOf(TagsData(CtagsLines(options, run)), order)), " | ")
  {
    var tags := MakeTagsData(options, run);
    var commands := RenderRules(rules, tags, order);
    commandText := Join(commands, " | ");
  }

  /**
    The loops of `make_syntax_commands`: for each rule, its clear and then,
    for every kind of the rule present in the table, one keyword or match
    command built from that kind's names in iteration order.
   */
  method RenderRules(rules: seq<Rule>, tags: map<string, set<string>>, order: set<string> -> seq<string>)
      returns (commands: seq<string>)
    requires AllRenderable(rules, tags.Keys)
    ensures ListingOf(tags, order).Keys == tags.Keys
    ensures commands == SyntaxCommandList(rules, ListingOf(tags, order))
  {
    ghost var listing := ListingOf(tags, order);
    assert listing.Keys == tags.Keys;
    commands := [];
    for i := 0 to |rules|
      invariant AllRenderable(rules[..i], listing.Keys)
      invariant commands == SyntaxCommandList(rules[..i], listing)
    {
      var rule := rules[i];
      var highlights := RenderKinds(rule, tags, order);
      commands := commands + [ClearCommand(rule.hlgroup)] + highlights;
      assert rules[..i + 1][..i] == rules[..i];
    }
    assert rules[..|rules|] == rules;
  }

  /** The inner loop over a rule's kinds: one keyword or match command per kind present in the table. */
  method RenderKinds(rule: Rule, tags: map<string, set<string>>, order: set<string> -> seq<string>)
      returns (commands: seq<string>)
    requires RenderableKinds(rule, rule.tagkinds, tags.Keys)
    ensures commands == KindCommands(rule, rule.tagkinds, ListingOf(tags, order))
  {
    ghost var listing := ListingOf(tags, order);
    assert listing.Keys == tags.Keys;
    commands := [];
    for j := 0 to |rule.tagkinds|
      invariant RenderableKinds(rule, rule.tagkinds[..j], listing.Keys)
      invariant commands == KindCommands(rule, rule.tagkinds[..j], listing)
    {
      var key := rule.tagkinds[j];
      ghost var kinds := rule.tagkinds[..j + 1];
      assert kinds[..j] == rule.tagkinds[..j] && kinds[j] == key;
      if key in tags {
        var cmd;
        if rule.syntaxType == "keyword" {
          cmd := KeywordCommand(rule.hlgroup, order(tags[key]), rule.ignore);
        } else {
          assert rule.syntaxType == "match";
          var keywords := MatchPattern(rule.prefix, order(tags[key]), rule.suffix);
          cmd := MatchCommand(rule.hlgroup, keywords, rule.ignore);
        }
        assert cmd == KindCommand(rule, listing[key]);
        commands := commands + [cmd];
      }
    }
    assert rule.tagkinds[..|rule.tagkinds|] == rule.tagkinds;
  }

  /** `make_syntax_clear_commands`: one clear per rule, joined by `" | "`. */
  method MakeSyntaxClearCommands(rules: seq<Rule>) returns (commandText: string)
    ensures commandText == Join(ClearCommandList(rules), " | ")
  {
    var commands: seq<string> := [];
    for i := 0 to |rules|
      invariant commands == ClearCommandList(rules[..i])
    {
      commands := commands + [ClearCommand(rules[i].hlgroup)];
    }
    assert rules[..|rules|] == rules;
    commandText := Join(commands, " | ");
  }
}
