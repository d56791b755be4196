/** What a capture picks from the source directory, and that its walk finds exactly what is there. */
module CaptureSelection {
  import opened Prelude
  import opened Ordering
  import opened ImportPaths
  import opened SourceCapture
  import opened CaptureProperties

  /** A configuration entry that is always looked for. */
  predicate IsNormal(name: string) {
    name in {"settings.json", "CLAUDE.md", "agents", "skills", "plugins", "hooks", "rules"}
  }

  /** An entry of the resume history. */
  predicate IsHistory(name: string) {
    name in {"projects", "sessions", "history.jsonl", "file-history", "plans", "tasks", "session-env"}
  }

  predicate IsMarkdown(name: string) {
    |name| >= 3 && name[|name| - 3] == '.' && name[|name| - 2] == 'm' && name[|name| - 1] == 'd'
  }

  /** What the user asked for. */
  predicate Asked(name: string, isFile: bool, sel: Selection) {
    && (name == "skills" ==> !sel.excludeSkills)
    && (IsNormal(name) || (IsHistory(name) && sel.includeResumeHistory) || (IsMarkdown(name) && isFile))
  }

  lemma MarkdownEnding(name: string)
    ensures EndsWithMd(name) <==> IsMarkdown(name)
  {
    if |name| >= 3 {
      var end := name[|name| - 3..];
      assert end == [name[|name| - 3], name[|name| - 2], name[|name| - 1]];
      assert end == ".md" <==> end[0] == '.' && end[1] == 'm' && end[2] == 'd';
    }
  }

  /** The two lists share no name, and no history entry is a Markdown file. */
  lemma HistoryApart(name: string)
    requires IsHistory(name)
    ensures !IsNormal(name) && !IsMarkdown(name) && name != "skills"
  {
    var normal := ["settings.json", "CLAUDE.md", "agents", "skills", "plugins", "hooks", "rules"];
    forall n | IsNormal(n) ensures n in normal {
    }
    forall i | 0 <= i < |normal| ensures name != normal[i] {
      assert |normal[i]| != |name| || normal[i][0] != name[0];
    }
  }

  /** The lists of the walk are these. */
  lemma WantedIffAsked(name: string, sel: Selection)
    ensures Wanted(name, sel) <==> IsNormal(name) || (IsHistory(name) && sel.includeResumeHistory)
  {
    assert name in NORMAL <==> IsNormal(name);
    assert name in HISTORY <==> IsHistory(name);
  }

  /** The chosen entries are exactly the safe listed ones that were asked for. */
  lemma {:induction false} ChosenIff(g: Graph, children: seq<Child>, sel: Selection, c: Child)
    requires Choose(g, children, sel).Some?
    ensures c in Choose(g, children, sel).value
            <==> c in children && IsSafe(g, c.node) && Asked(c.name, g[c.node].File?, sel)
  {
    if children != [] {
      ChosenIff(g, children[1..], sel, c);
      var first := children[0];
      WantedIffAsked(first.name, sel);
      MarkdownEnding(first.name);
      assert c in children <==> c == first || c in children[1..];
    }
  }

  /** Resume history is chosen only when it was asked for, and skills only when they were not excluded. */
  lemma ChosenRespectsSelection(g: Graph, children: seq<Child>, sel: Selection, c: Child)
    requires Choose(g, children, sel).Some? && c in Choose(g, children, sel).value
    ensures IsSafe(g, c.node) && (sel.excludeSkills ==> c.name != "skills")
    ensures IsHistory(c.name) ==> sel.includeResumeHistory
    ensures !IsHistory(c.name) && !IsNormal(c.name) ==> IsMarkdown(c.name) && g[c.node].File?
  {
    ChosenIff(g, children, sel, c);
    if IsHistory(c.name) {
      HistoryApart(c.name);
    }
  }

  // ---- what the walk finds ----

  /** Following `names` from `node` leads to `target`. */
  ghost predicate Reaches(g: Graph, node: nat, names: seq<string>, target: nat)
    decreases |names|
  {
    if names == [] then node == target
    else
      node in g && g[node].Dir?
      && exists i :: 0 <= i < |g[node].entries| && Leads(g, g[node].entries[i], names, target)
  }

  /** The link starts the way to `target`. */
  ghost predicate Leads(g: Graph, l: Link, names: seq<string>, target: nat)
    requires names != []
    decreases |names|, 0
  {
    l.name == Some(names[0]) && Reaches(g, l.node, names[1..], target)
  }

  /** The item lies at the end of `names` below `trail`. */
  ghost predicate At(g: Graph, item: Item, trail: seq<string>, names: seq<string>, target: nat) {
    target in g && item.trail == trail + names && item.node == g[target]
  }

  ghost predicate Listed(g: Graph, items: seq<Item>, trail: seq<string>, names: seq<string>, target: nat) {
    exists i :: 0 <= i < |items| && At(g, items[i], trail, names, target)
  }

  lemma ListedIn(g: Graph, a: seq<Item>, b: seq<Item>, trail: seq<string>, names: seq<string>, target: nat)
    ensures Listed(g, a, trail, names, target) || Listed(g, b, trail, names, target)
            ==> Listed(g, a + b, trail, names, target)
  {
    if Listed(g, a, trail, names, target) {
      var i :| 0 <= i < |a| && At(g, a[i], trail, names, target);
      assert (a + b)[i] == a[i];
    }
    if Listed(g, b, trail, names, target) {
      var i :| 0 <= i < |b| && At(g, b[i], trail, names, target);
      assert (a + b)[|a| + i] == b[i];
    }
  }

  lemma ListedDeeper(g: Graph, items: seq<Item>, trail: seq<string>, names: seq<string>, target: nat)
    requires names != [] && Listed(g, items, trail + [names[0]], names[1..], target)
    ensures Listed(g, items, trail, names, target)
  {
    var i :| 0 <= i < |items| && At(g, items[i], trail + [names[0]], names[1..], target);
    assert trail + [names[0]] + names[1..] == trail + names;
    assert At(g, items[i], trail, names, target);
  }

  lemma ChildListed(entries: seq<Link>, i: nat)
    requires i < |entries| && forall k :: 0 <= k < |entries| ==> ValidLink(entries[k])
    ensures ChildOf(entries[i]) in SortBy(ChildrenOf(entries), NameOf)
  {
    SortSorts(ChildrenOf(entries), NameOf);
    assert ChildrenOf(entries)[i] == ChildOf(entries[i]);
    assert ChildOf(entries[i]) in multiset(ChildrenOf(entries));
  }

  /** A successful survey lists everything that can be reached. */
  lemma {:induction false} SurveyComplete(g: Graph, node: nat, path: string, trail: seq<string>, read: bool,
                                          names: seq<string>, target: nat)
    requires Survey(g, node, path, trail, read).Some? && Reaches(g, node, names, target)
    ensures Listed(g, Survey(g, node, path, trail, read).value, trail, names, target)
    decreases Room(|trail|), 1, 0
  {
    var items := Survey(g, node, path, trail, read).value;
    if names == [] {
      assert items[0] == Item(path, trail, g[node]) && trail + [] == trail;
      assert At(g, items[0], trail, names, target);
    } else {
      var entries := g[node].entries;
      var i :| 0 <= i < |entries| && Leads(g, entries[i], names, target);
      var children := SortBy(ChildrenOf(entries), NameOf);
      ChildListed(entries, i);
      SurveyAllComplete(g, children, path, trail, read, ChildOf(entries[i]), names, target);
      var below := SurveyAll(g, children, path, trail, read).value;
      ListedIn(g, [Item(path, trail, g[node])], below, trail, names, target);
    }
  }

  lemma {:induction false} SurveyAllComplete(g: Graph, children: seq<Child>, path: string, trail: seq<string>,
                                             read: bool, c: Child, names: seq<string>, target: nat)
    requires |trail| <= MAX_DEPTH && SurveyAll(g, children, path, trail, read).Some?
    requires c in children && names != [] && names[0] == c.name && Reaches(g, c.node, names[1..], target)
    ensures Listed(g, SurveyAll(g, children, path, trail, read).value, trail, names, target)
    decreases Room(|trail|), 0, |children|
  {
    var first := Survey(g, children[0].node, path + "/" + children[0].name, trail + [children[0].name], read);
    var rest := SurveyAll(g, children[1..], path, trail, read);
    if c == children[0] {
      SurveyComplete(g, c.node, path + "/" + c.name, trail + [c.name], read, names[1..], target);
      ListedDeeper(g, first.value, trail, names, target);
    } else {
      SurveyAllComplete(g, children[1..], path, trail, read, c, names, target);
    }
    ListedIn(g, first.value, rest.value, trail, names, target);
  }

  /** Something is reached at the end of the item's own names. */
  ghost predicate Reached(g: Graph, node: nat, item: Item, depth: nat) {
    depth <= |item.trail|
    && exists target :: target in g && item.node == g[target] && Reaches(g, node, item.trail[depth..], target)
  }

  lemma ReachedHere(g: Graph, node: nat, item: Item, depth: nat)
    requires node in g && item.node == g[node] && |item.trail| == depth
    ensures Reached(g, node, item, depth)
  {
    assert item.trail[depth..] == [];
    assert Reaches(g, node, [], node);
  }

  lemma ReachedDeeper(g: Graph, node: nat, i: nat, item: Item, depth: nat)
    requires node in g && g[node].Dir? && i < |g[node].entries|
    requires depth < |item.trail| && g[node].entries[i].name == Some(item.trail[depth])
    requires Reached(g, g[node].entries[i].node, item, depth + 1)
    ensures Reached(g, node, item, depth)
  {
    var l := g[node].entries[i];
    var target :| target in g && item.node == g[target] && Reaches(g, l.node, item.trail[depth + 1..], target);
    var names := item.trail[depth..];
    assert names[1..] == item.trail[depth + 1..];
    assert Leads(g, l, names, target);
    assert Reaches(g, node, names, target);
  }

  lemma ListedChild(entries: seq<Link>, c: Child) returns (i: nat)
    requires forall k :: 0 <= k < |entries| ==> ValidLink(entries[k])
    requires c in SortBy(ChildrenOf(entries), NameOf)
    ensures i < |entries| && entries[i].name == Some(c.name) && entries[i].node == c.node
  {
    SortSorts(ChildrenOf(entries), NameOf);
    assert c in multiset(ChildrenOf(entries));
    i :| 0 <= i < |entries| && ChildrenOf(entries)[i] == c;
  }

  /** A successful survey lists nothing else. */
  lemma {:induction false} SurveySound(g: Graph, node: nat, path: string, trail: seq<string>, read: bool, k: nat)
    requires Survey(g, node, path, trail, read).Some? && k < |Survey(g, node, path, trail, read).value|
    ensures var item := Survey(g, node, path, trail, read).value[k];
            trail <= item.trail && Reached(g, node, item, |trail|)
    decreases Room(|trail|), 1, 0
  {
    var item := Survey(g, node, path, trail, read).value[k];
    if k == 0 {
      ReachedHere(g, node, item, |trail|);
    } else {
      var entries := g[node].entries;
      var children := SortBy(ChildrenOf(entries), NameOf);
      var c := SurveyAllSound(g, children, path, trail, read, k - 1);
      var i := ListedChild(entries, c);
      ReachedDeeper(g, node, i, item, |trail|);
    }
  }

  lemma {:induction false} SurveyAllSound(g: Graph, children: seq<Child>, path: string, trail: seq<string>,
                                          read: bool, k: nat)
    returns (c: Child)
    requires |trail| <= MAX_DEPTH && SurveyAll(g, children, path, trail, read).Some?
    requires k < |SurveyAll(g, children, path, trail, read).value|
    ensures var item := SurveyAll(g, children, path, trail, read).value[k];
            && c in children && trail < item.trail && item.trail[|trail|] == c.name
            && Reached(g, c.node, item, |trail| + 1)
    decreases Room(|trail|), 0, |children|
  {
    c := children[0];
    var first := Survey(g, c.node, path + "/" + c.name, trail + [c.name], read).value;
    if k < |first| {
      SurveySound(g, c.node, path + "/" + c.name, trail + [c.name], read, k);
      assert (trail + [c.name])[|trail|] == c.name;
    } else {
      c := SurveyAllSound(g, children[1..], path, trail, read, k - |first|);
    }
  }

  /** The entries of the source directory, when it can be walked. */
  function Listing(s: Source): seq<Child>
    requires s.root.Some? && s.root.value in s.graph && s.graph[s.root.value].Dir?
    requires forall i :: 0 <= i < |s.graph[s.root.value].entries| ==> ValidLink(s.graph[s.root.value].entries[i])
  {
    SortBy(ChildrenOf(s.graph[s.root.value].entries), NameOf)
  }

  /** Every captured item lies below an entry that was asked for: no history unless included, no excluded skills. */
  lemma CapturedWasAsked(s: Source, sel: Selection, read: bool, k: nat)
    requires WholeWalk(s, sel, read).Some? && k < |WholeWalk(s, sel, read).value.1|
    ensures var item := WholeWalk(s, sel, read).value.1[k];
            && item.trail != []
            && (sel.excludeSkills ==> item.trail[0] != "skills")
            && (IsHistory(item.trail[0]) ==> sel.includeResumeHistory)
            && (IsHistory(item.trail[0]) || IsNormal(item.trail[0]) || (IsMarkdown(item.trail[0]) && |item.trail| == 1))
  {
    var roots := WholeWalk(s, sel, read).value.0;
    var item := WholeWalk(s, sel, read).value.1[k];
    var c := SurveyAllSound(s.graph, roots, ROOT, [], read, k);
    ChosenRespectsSelection(s.graph, Listing(s), sel, c);
    if s.graph[c.node].File? {
      FilesAreLeaves(s.graph, c.node, item, 1);
    }
  }

  lemma FilesAreLeaves(g: Graph, node: nat, item: Item, depth: nat)
    requires node in g && g[node].File? && Reached(g, node, item, depth)
    ensures |item.trail| == depth
  {
  }

  /** Everything below an entry that was asked for is captured. */
  lemma AskedIsCaptured(s: Source, sel: Selection, read: bool, c: Child, names: seq<string>, target: nat)
    requires s.root.Some? && WholeWalk(s, sel, read).Some? && c in Listing(s)
    requires IsSafe(s.graph, c.node) && Asked(c.name, s.graph[c.node].File?, sel)
    requires names != [] && names[0] == c.name && Reaches(s.graph, c.node, names[1..], target)
    ensures Listed(s.graph, WholeWalk(s, sel, read).value.1, [], names, target)
  {
    ChosenIff(s.graph, Listing(s), sel, c);
    var roots := WholeWalk(s, sel, read).value.0;
    SurveyAllComplete(s.graph, roots, ROOT, [], read, c, names, target);
  }

  // ---- what the second walk notices ----

  ghost predicate DistinctPaths(items: seq<Item>) {
    forall i, j :: 0 <= i < j < |items| ==> items[i].path != items[j].path
  }

  lemma TrailsMakePaths(items: seq<Item>, read: bool)
    requires AllFound(items, [], read) && DistinctTrails(items)
    ensures DistinctPaths(items)
  {
    forall i, j | 0 <= i < j < |items| ensures items[i].path != items[j].path {
      assert Found(items[i], [], read) && Found(items[j], [], read);
      if items[i].path == items[j].path {
        RenderInjective(items[i].trail, items[j].trail);
      }
    }
  }

  /** The records hold the stamp of every item under its path, and nothing else. */
  lemma {:induction false} RecordsHold(items: seq<Item>, path: string)
    requires DistinctPaths(items)
    ensures path in Records(items) <==> exists i :: 0 <= i < |items| && items[i].path == path
    ensures forall i :: 0 <= i < |items| && items[i].path == path ==> Records(items)[path] == Stamp(items[i].node)
  {
    if items != [] {
      var rest := items[1..];
      assert forall i :: 0 <= i < |rest| ==> rest[i] == items[i + 1];
      RecordsHold(rest, path);
      if path in Records(rest) {
        var i :| 0 <= i < |rest| && rest[i].path == path;
        assert items[i + 1].path == path && items[0].path != path;
      }
      if path == items[0].path {
        assert items[0].path == path;
      }
    }
  }

  /** The item was there both times, unchanged. */
  predicate SeenAgain(item: Item, items: seq<Item>) {
    exists j :: 0 <= j < |items| && items[j].path == item.path && Stamp(items[j].node) == Stamp(item.node)
  }

  lemma SameRecordsSame(a: seq<Item>, b: seq<Item>, i: nat)
    requires DistinctPaths(a) && DistinctPaths(b) && i < |a|
    requires a[i].path in Records(a) && a[i].path in Records(b) && Records(b)[a[i].path] == Records(a)[a[i].path]
    ensures SeenAgain(a[i], b)
  {
    RecordsHold(a, a[i].path);
    RecordsHold(b, a[i].path);
  }

  lemma WalkPaths(s: Source, sel: Selection, read: bool)
    requires Proper(s.graph) && WholeWalk(s, sel, read).Some?
    ensures var items := WholeWalk(s, sel, read).value.1;
            DistinctPaths(items) && forall i :: 0 <= i < |items| ==> items[i].path != "$HOME" && items[i].path != ROOT
  {
    if s.root.Some? {
      var entries := s.graph[s.root.value].entries;
      SortedChildrenProper(entries);
      ChosenProper(s.graph, SortBy(ChildrenOf(entries), NameOf), sel);
      var roots := WholeWalk(s, sel, read).value.0;
      SurveyAllFinds(s.graph, roots, ROOT, [], read);
      SurveyAllDistinct(s.graph, roots, ROOT, [], read);
      var items := WholeWalk(s, sel, read).value.1;
      TrailsMakePaths(items, read);
      forall i | 0 <= i < |items| ensures items[i].path != "$HOME" && items[i].path != ROOT {
        assert Branch(items[i], []) && Found(items[i], [], read);
        RenderRooted(items[i].trail);
        assert (ROOT + "/")[0] == '~';
      }
    }
  }

  /** A capture whose two walks agree saw the same paths with the same stamps both times, and the same home. */
  lemma AgreementMeansUnchanged(first: Source, second: Source, sel: Selection, i: nat)
    requires Proper(first.graph) && Proper(second.graph)
    requires WholeWalk(first, sel, true).Some? && WholeWalk(second, sel, false).Some?
    requires Start(first).records + Records(WholeWalk(first, sel, true).value.1)
          == Start(second).records + Records(WholeWalk(second, sel, false).value.1)
    ensures var a, b := WholeWalk(first, sel, true).value.1, WholeWalk(second, sel, false).value.1;
            (i < |a| ==> SeenAgain(a[i], b)) && (i < |b| ==> SeenAgain(b[i], a))
    ensures first.home == second.home
  {
    var a, b := WholeWalk(first, sel, true).value.1, WholeWalk(second, sel, false).value.1;
    WalkPaths(first, sel, true);
    WalkPaths(second, sel, false);
    var x, y := Start(first).records + Records(a), Start(second).records + Records(b);
    if i < |a| {
      RecordsHold(a, a[i].path);
      assert a[i].path in x && a[i].path in y;
      SameRecordsSame(a, b, i);
    }
    if i < |b| {
      RecordsHold(b, b[i].path);
      assert b[i].path in y && b[i].path in x;
      SameRecordsSame(b, a, i);
    }
    RecordsHold(a, "$HOME");
    RecordsHold(b, "$HOME");
    assert "$HOME" != ROOT;
    assert x["$HOME"] == first.home && y["$HOME"] == second.home;
  }

  /** The limits in numbers: what every captured manifest stays within. */
  lemma CapturedWithinLimits(s: Source, sel: Selection, m: ManifestEntry)
    requires Proper(s.graph) && WholeWalk(s, sel, true).Some?
    requires WithinBudgets(Visited(Start(s), WholeWalk(s, sel, true).value.1, true))
    ensures var items := WholeWalk(s, sel, true).value.1;
            && |Manifest(items)| <= |items| <= 2048 && SumSizes(Manifest(items)) <= 8_388_608
            && PathBytes(items) <= 262_144
            && (m in Manifest(items) ==>
                  m.size <= 1_048_576 && Bytes(m.path) <= 1024 && m.mode == 384 && "~/.claude/" <= m.path)
  {
    var items := WholeWalk(s, sel, true).value.1;
    WholeWalkItems(s, sel);
    ManifestSizes(items);
    ManifestLines(items, m);
    assert ROOT + "/" == "~/.claude/";
  }

  /** And nothing within them is refused: the budgets and a single file. */
  lemma LimitsMean(t: Tally, g: Graph, node: nat, path: string, trail: seq<string>, read: bool)
    ensures WithinBudgets(t) <==> t.entries <= 2048 && t.pathBytes <= 262_144 && t.bytes <= 8_388_608
    ensures node in g && g[node].File? ==>
              (Survey(g, node, path, trail, read).Some?
               <==> |trail| <= 32 && Bytes(path) <= 1024 && g[node].length <= 1_048_576
                    && (read ==> |g[node].content| == g[node].length))
  {
  }

  /** An unsafe entry that is asked for. */
  predicate Blocks(g: Graph, l: Link, sel: Selection) {
    ValidLink(l) && Considered(l.name.value, sel) && !IsSafe(g, l.node)
  }

  /** A selection fails exactly on an invalid name, more than 2048 entries, an unsafe one that is asked for, or more
      than 64 chosen ones. */
  lemma SelectionFailsIff(g: Graph, entries: seq<Link>, sel: Selection)
    ensures |entries| > 2048 || (exists i :: 0 <= i < |entries| && !ValidLink(entries[i])) ==>
              Roots(g, entries, sel).None?
    ensures |entries| <= 2048 && (forall i :: 0 <= i < |entries| ==> ValidLink(entries[i])) ==>
              var chosen := Choose(g, SortBy(ChildrenOf(entries), NameOf), sel);
              && (chosen.None? <==> exists i :: 0 <= i < |entries| && Blocks(g, entries[i], sel))
              && (Roots(g, entries, sel).None? <==> chosen.None? || |chosen.value| > 64)
  {
    if forall i :: 0 <= i < |entries| ==> ValidLink(entries[i]) {
      BlockedIff(g, entries, sel);
    }
  }

  lemma BlockedIff(g: Graph, entries: seq<Link>, sel: Selection)
    requires forall i :: 0 <= i < |entries| ==> ValidLink(entries[i])
    ensures Choose(g, SortBy(ChildrenOf(entries), NameOf), sel).None?
            <==> exists i :: 0 <= i < |entries| && Blocks(g, entries[i], sel)
  {
    var children := ChildrenOf(entries);
    var sorted := SortBy(children, NameOf);
    ChooseFailsIff(g, sorted, sel);
    if i :| 0 <= i < |entries| && Blocks(g, entries[i], sel) {
      ChildListed(entries, i);
      assert BlocksChild(g, ChildOf(entries[i]), sel);
    }
    if c :| c in sorted && BlocksChild(g, c, sel) {
      SortSorts(children, NameOf);
      assert c in multiset(children);
      var i :| 0 <= i < |children| && children[i] == c;
      assert Blocks(g, entries[i], sel);
    }
  }

  predicate BlocksChild(g: Graph, c: Child, sel: Selection) {
    Considered(c.name, sel) && !IsSafe(g, c.node)
  }

  lemma {:induction false} ChooseFailsIff(g: Graph, children: seq<Child>, sel: Selection)
    ensures Choose(g, children, sel).None? <==> exists c :: c in children && BlocksChild(g, c, sel)
  {
    if children != [] {
      ChooseFailsIff(g, children[1..], sel);
      assert children == [children[0]] + children[1..];
      assert BlocksChild(g, children[0], sel) ==> children[0] in children;
    }
  }

  /** Names that are never captured, whatever the directory says. */
  lemma UnsafeNamesRefused()
    ensures !ValidName("") && !ValidName(".") && !ValidName("..") && !ValidName("a/b") && !ValidName("a\\b")
    ensures !ValidName(" a") && !ValidName("a ") && !ValidName("a\nb") && ValidName("CLAUDE.md") && ValidName("a b")
  {
    assert "a/b"[1] == '/';
    assert "a\\b"[1] == '\\';
    assert "a\nb"[1] == '\n';
  }
}
