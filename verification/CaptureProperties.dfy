/** What every captured manifest satisfies. */
module CaptureProperties {
  import opened Prelude
  import opened Ordering
  import opened ImportPaths
  import opened SourceCapture

  function LinkName(l: Link): string {
    if l.name.Some? then l.name.value else ""
  }

  /** No directory lists a name twice. */
  ghost predicate Proper(g: Graph) {
    forall n :: n in g && g[n].Dir? ==> DistinctKeys(g[n].entries, LinkName)
  }

  ghost predicate ProperChildren(children: seq<Child>) {
    DistinctKeys(children, NameOf) && forall i :: 0 <= i < |children| ==> ValidName(children[i].name)
  }

  lemma SortedChildrenProper(entries: seq<Link>)
    requires DistinctKeys(entries, LinkName) && forall i :: 0 <= i < |entries| ==> ValidLink(entries[i])
    ensures ProperChildren(SortBy(ChildrenOf(entries), NameOf))
  {
    var children := ChildrenOf(entries);
    assert forall i :: 0 <= i < |entries| ==> NameOf(children[i]) == LinkName(entries[i]);
    SortSorts(children, NameOf);
    var sorted := SortBy(children, NameOf);
    DistinctKeysPermute(children, sorted, NameOf);
    forall i | 0 <= i < |sorted| ensures ValidName(sorted[i].name) {
      assert sorted[i] in multiset(sorted);
      var k :| 0 <= k < |children| && children[k] == sorted[i];
      assert ValidLink(entries[k]);
    }
  }

  /** An item at or below `trail`, with the path text of its own trail. */
  ghost predicate Found(item: Item, trail: seq<string>, read: bool) {
    && trail <= item.trail
    && ValidTrail(item.trail)
    && item.path == Render(item.trail)
    && Bytes(item.path) <= MAX_PATH
    && (item.node.File? ==> GoodFile(item.node, read))
  }

  ghost predicate AllFound(items: seq<Item>, trail: seq<string>, read: bool) {
    forall i :: 0 <= i < |items| ==> Found(items[i], trail, read)
  }

  lemma FoundAbove(items: seq<Item>, trail: seq<string>, name: string, read: bool)
    requires AllFound(items, trail + [name], read)
    ensures AllFound(items, trail, read)
  {
    forall i | 0 <= i < |items| ensures Found(items[i], trail, read) {
      assert trail <= trail + [name] <= items[i].trail;
    }
  }

  lemma FoundFirst(item: Item, below: seq<Item>, trail: seq<string>, read: bool)
    requires Found(item, trail, read) && AllFound(below, trail, read)
    ensures AllFound([item] + below, trail, read)
  {
  }

  lemma {:induction false} SurveyFinds(g: Graph, node: nat, path: string, trail: seq<string>, read: bool)
    requires ValidTrail(trail) && path == Render(trail)
    ensures var s := Survey(g, node, path, trail, read); s.Some? ==> AllFound(s.value, trail, read)
    decreases Room(|trail|), 1, 0
  {
    var s := Survey(g, node, path, trail, read);
    if s.Some? && g[node].Dir? {
      var entries := g[node].entries;
      var children := SortBy(ChildrenOf(entries), NameOf);
      ValidChildren(entries);
      SurveyAllFinds(g, children, path, trail, read);
      FoundFirst(Item(path, trail, g[node]), SurveyAll(g, children, path, trail, read).value, trail, read);
    }
  }

  lemma ValidChildren(entries: seq<Link>)
    requires forall i :: 0 <= i < |entries| ==> ValidLink(entries[i])
    ensures forall c :: c in SortBy(ChildrenOf(entries), NameOf) ==> ValidName(c.name)
  {
    SortSorts(ChildrenOf(entries), NameOf);
    forall c | c in SortBy(ChildrenOf(entries), NameOf) ensures ValidName(c.name) {
      assert c in multiset(ChildrenOf(entries));
      var k :| 0 <= k < |entries| && ChildrenOf(entries)[k] == c;
      assert ValidLink(entries[k]);
    }
  }

  lemma {:induction false} SurveyAllFinds(g: Graph, children: seq<Child>, path: string, trail: seq<string>, read: bool)
    requires ValidTrail(trail) && path == Render(trail) && |trail| <= MAX_DEPTH
    requires forall c :: c in children ==> ValidName(c.name)
    ensures var s := SurveyAll(g, children, path, trail, read); s.Some? ==> AllFound(s.value, trail, read)
    decreases Room(|trail|), 0, |children|
  {
    if children != [] {
      var c := children[0];
      RenderChild(trail, c.name);
      SurveyFinds(g, c.node, path + "/" + c.name, trail + [c.name], read);
      SurveyAllFinds(g, children[1..], path, trail, read);
      var first := Survey(g, c.node, path + "/" + c.name, trail + [c.name], read);
      if first.Some? {
        FoundAbove(first.value, trail, c.name, read);
      }
    }
  }

  // ---- no two items share a trail ----

  ghost predicate DistinctTrails(items: seq<Item>) {
    forall i, j :: 0 <= i < j < |items| ==> items[i].trail != items[j].trail
  }

  /** Each item lies below one of the children. */
  ghost predicate BelowSome(items: seq<Item>, children: seq<Child>, trail: seq<string>) {
    forall i :: 0 <= i < |items| ==>
        Branch(items[i], trail) && exists c :: c in children && items[i].trail[|trail|] == c.name
  }

  predicate Branch(item: Item, trail: seq<string>) {
    trail < item.trail
  }

  ghost predicate AtOrBelow(items: seq<Item>, trail: seq<string>) {
    forall i :: 0 <= i < |items| ==> trail <= items[i].trail
  }

  lemma {:induction false} SurveyDistinct(g: Graph, node: nat, path: string, trail: seq<string>, read: bool)
    requires Proper(g)
    ensures var s := Survey(g, node, path, trail, read);
            s.Some? ==> DistinctTrails(s.value) && AtOrBelow(s.value, trail)
    decreases Room(|trail|), 1, 0
  {
    var s := Survey(g, node, path, trail, read);
    if s.Some? && g[node].Dir? {
      var entries := g[node].entries;
      SortedChildrenProper(entries);
      SurveyAllDistinct(g, SortBy(ChildrenOf(entries), NameOf), path, trail, read);
      var below := SurveyAll(g, SortBy(ChildrenOf(entries), NameOf), path, trail, read).value;
      assert forall i :: 0 <= i < |below| ==> Branch(below[i], trail);
    }
  }

  lemma Disjoint(first: seq<Item>, rest: seq<Item>, name: string, others: seq<Child>, trail: seq<string>)
    requires AtOrBelow(first, trail + [name]) && BelowSome(rest, others, trail)
    requires DistinctTrails(first) && DistinctTrails(rest)
    requires forall c :: c in others ==> c.name != name
    ensures DistinctTrails(first + rest)
    ensures BelowSome(first + rest, [Child(name, 0)] + others, trail)
  {
    forall i | 0 <= i < |first| ensures Branch(first[i], trail) && first[i].trail[|trail|] == name {
      assert trail < trail + [name] <= first[i].trail;
      assert (trail + [name])[|trail|] == name;
    }
    var both := first + rest;
    forall i | 0 <= i < |both|
      ensures Branch(both[i], trail) && exists c :: c in [Child(name, 0)] + others && both[i].trail[|trail|] == c.name
    {
      if i < |first| {
        assert Child(name, 0) in [Child(name, 0)] + others;
      } else {
        var c :| c in others && rest[i - |first|].trail[|trail|] == c.name;
        assert c in [Child(name, 0)] + others;
      }
    }
  }

  lemma {:induction false} SurveyAllDistinct(g: Graph, children: seq<Child>, path: string, trail: seq<string>,
                                             read: bool)
    requires Proper(g) && ProperChildren(children) && |trail| <= MAX_DEPTH
    ensures var s := SurveyAll(g, children, path, trail, read);
            s.Some? ==> DistinctTrails(s.value) && BelowSome(s.value, children, trail)
    decreases Room(|trail|), 0, |children|
  {
    var s := SurveyAll(g, children, path, trail, read);
    if s.Some? && children != [] {
      var c := children[0];
      SurveyDistinct(g, c.node, path + "/" + c.name, trail + [c.name], read);
      SurveyAllDistinct(g, children[1..], path, trail, read);
      var first := Survey(g, c.node, path + "/" + c.name, trail + [c.name], read).value;
      var rest := SurveyAll(g, children[1..], path, trail, read).value;
      forall d | d in children[1..] ensures d.name != c.name {
        var k :| 0 <= k < |children[1..]| && children[1..][k] == d;
        assert NameOf(children[0]) != NameOf(children[k + 1]);
      }
      Disjoint(first, rest, c.name, children[1..], trail);
      forall i | 0 <= i < |s.value| ensures exists d :: d in children && s.value[i].trail[|trail|] == d.name {
        var d :| d in [Child(c.name, 0)] + children[1..] && s.value[i].trail[|trail|] == d.name;
        if d == Child(c.name, 0) {
          assert c in children;
        }
      }
    }
  }

  // ---- from items to the manifest ----

  function SumSizes(m: seq<ManifestEntry>): nat {
    if m == [] then 0 else m[0].size + SumSizes(m[1..])
  }

  /** A manifest line that the receipt check accepts on its own. */
  predicate GoodLine(m: ManifestEntry) {
    ValidPath(m.path) && m.size <= MAX_FILE_BYTES && m.sha256.Sha256? && m.mode == PRIVATE_MODE
  }

  /** What the receipt check accepts as a whole. */
  ghost predicate GoodManifest(m: seq<ManifestEntry>) {
    && StrictlySortedBy(m, PathOf)
    && (forall i :: 0 <= i < |m| ==> GoodLine(m[i]))
    && |m| <= MAX_ENTRIES
    && SumSizes(m) <= MAX_TOTAL_BYTES
  }

  ghost predicate Readable(items: seq<Item>) {
    AllFound(items, [], true) && forall i :: 0 <= i < |items| ==> items[i].trail != []
  }

  ghost predicate Listed(path: string, items: seq<Item>) {
    exists i :: 0 <= i < |items| && items[i].path == path
  }

  lemma ListedLater(path: string, items: seq<Item>)
    requires items != []
    ensures Listed(path, items[1..]) ==> Listed(path, items)
  {
    if Listed(path, items[1..]) {
      var i :| 0 <= i < |items[1..]| && items[1..][i].path == path;
      assert items[i + 1].path == path;
    }
  }

  lemma ItemLine(item: Item, m: ManifestEntry)
    requires Found(item, [], true) && item.trail != []
    ensures m in Line(item) ==> GoodLine(m) && m.path == item.path
  {
    RenderValid(item.trail);
  }

  /** Every manifest line is acceptable and comes from an item. */
  lemma {:induction false} ManifestLines(items: seq<Item>, m: ManifestEntry)
    requires Readable(items)
    ensures m in Manifest(items) ==> GoodLine(m) && Listed(m.path, items)
  {
    if items != [] {
      ManifestLines(items[1..], m);
      ListedLater(m.path, items);
      assert Found(items[0], [], true);
      ItemLine(items[0], m);
      if m in Line(items[0]) {
        assert items[0].path == m.path;
      }
    }
  }

  /** A line tells the content of the file it is for: its size, its digest, and that only the owner may read it. */
  predicate Tells(m: ManifestEntry, item: Item) {
    item.node.File? && m == ManifestEntry(item.path, |item.node.content|, Sha256(item.node.content), 0x180)
  }

  /** The manifest tells the content of every visited file, and of nothing else. */
  lemma {:induction false} ManifestTells(items: seq<Item>)
    ensures forall m :: m in Manifest(items) ==> exists i :: 0 <= i < |items| && Tells(m, items[i])
    ensures forall i :: 0 <= i < |items| && items[i].node.File? ==>
              exists k :: 0 <= k < |Manifest(items)| && Tells(Manifest(items)[k], items[i])
  {
    if items != [] {
      var first, rest := items[0], items[1..];
      ManifestTells(rest);
      assert Manifest(items) == Line(first) + Manifest(rest);
      forall m | m in Manifest(items) ensures exists i :: 0 <= i < |items| && Tells(m, items[i]) {
        if m in Line(first) {
          assert Tells(m, items[0]);
        } else {
          var i :| 0 <= i < |rest| && Tells(m, rest[i]);
          assert Tells(m, items[i + 1]);
        }
      }
      forall i | 0 <= i < |items| && items[i].node.File?
        ensures exists k :: 0 <= k < |Manifest(items)| && Tells(Manifest(items)[k], items[i])
      {
        if i == 0 {
          assert Tells(Manifest(items)[0], items[0]);
        } else {
          assert items[i] == rest[i - 1];
          var k :| 0 <= k < |Manifest(rest)| && Tells(Manifest(rest)[k], rest[i - 1]);
          assert Manifest(items)[|Line(first)| + k] == Manifest(rest)[k];
        }
      }
    }
  }

  /** The manifest is no longer than the list of items, and its sizes add up to the bytes counted. */
  lemma {:induction false} ManifestSizes(items: seq<Item>)
    requires Readable(items)
    ensures |Manifest(items)| <= |items|
    ensures SumSizes(Manifest(items)) == FileBytes(items)
  {
    if items != [] {
      ManifestSizes(items[1..]);
      var first, rest := items[0], Manifest(items[1..]);
      assert Found(first, [], true);
      if first.node.File? {
        assert (Line(first) + rest)[1..] == rest;
      } else {
        assert Line(first) + rest == rest;
      }
    }
  }

  lemma TrailsApart(items: seq<Item>, path: string)
    requires Readable(items) && DistinctTrails(items) && items != [] && Listed(path, items[1..])
    ensures path != items[0].path
  {
    var i :| 0 <= i < |items[1..]| && items[1..][i].path == path;
    var a, b := items[0], items[i + 1];
    assert a.trail != b.trail;
    assert Found(a, [], true) && Found(b, [], true);
    if path == a.path {
      RenderInjective(a.trail, b.trail);
    }
  }

  lemma {:induction false} ManifestDistinct(items: seq<Item>)
    requires Readable(items) && DistinctTrails(items)
    ensures DistinctKeys(Manifest(items), PathOf)
  {
    if items != [] {
      ManifestDistinct(items[1..]);
      var rest := Manifest(items[1..]);
      forall k | 0 <= k < |rest| ensures rest[k].path != items[0].path {
        ManifestLines(items[1..], rest[k]);
        TrailsApart(items, rest[k].path);
      }
    }
  }

  lemma {:induction false} InsertSum(x: ManifestEntry, s: seq<ManifestEntry>)
    ensures SumSizes(Insert(x, s, PathOf)) == x.size + SumSizes(s)
  {
    if s == [] || !Before(PathOf(s[0]), PathOf(x)) {
      assert ([x] + s)[1..] == s;
    } else {
      InsertSum(x, s[1..]);
      assert ([s[0]] + Insert(x, s[1..], PathOf))[1..] == Insert(x, s[1..], PathOf);
    }
  }

  lemma {:induction false} SortSum(s: seq<ManifestEntry>)
    ensures SumSizes(SortBy(s, PathOf)) == SumSizes(s)
  {
    if s != [] {
      SortSum(s[1..]);
      InsertSum(s[0], SortBy(s[1..], PathOf));
    }
  }

  lemma {:induction false} ChosenProper(g: Graph, children: seq<Child>, sel: Selection)
    requires ProperChildren(children)
    ensures var c := Choose(g, children, sel);
            c.Some? ==> ProperChildren(c.value) && forall x :: x in c.value ==> x in children
  {
    if children != [] {
      ChosenProper(g, children[1..], sel);
      var rest := Choose(g, children[1..], sel);
      if rest.Some? {
        forall k | 0 <= k < |rest.value| ensures NameOf(rest.value[k]) != NameOf(children[0]) {
          assert rest.value[k] in children[1..];
          var i :| 0 <= i < |children[1..]| && children[1..][i] == rest.value[k];
          assert NameOf(children[0]) != NameOf(children[i + 1]);
        }
      }
    }
  }

  /** The items of a whole walk: readable, below the root, no two alike. */
  lemma WholeWalkItems(s: Source, sel: Selection)
    requires Proper(s.graph) && WholeWalk(s, sel, true).Some?
    ensures var items := WholeWalk(s, sel, true).value.1; Readable(items) && DistinctTrails(items)
  {
    if s.root.Some? {
      var entries := s.graph[s.root.value].entries;
      SortedChildrenProper(entries);
      ChosenProper(s.graph, SortBy(ChildrenOf(entries), NameOf), sel);
      var roots := Roots(s.graph, entries, sel).value;
      SurveyAllFinds(s.graph, roots, ROOT, [], true);
      SurveyAllDistinct(s.graph, roots, ROOT, [], true);
      var items := WholeWalk(s, sel, true).value.1;
      assert forall i :: 0 <= i < |items| ==> Branch(items[i], []);
    }
  }

  /** Every captured manifest is strictly sorted, holds only acceptable lines, stays within every budget,
      and accounts for every captured byte. */
  lemma CapturedManifestGood(s: Source, sel: Selection)
    requires Proper(s.graph) && WholeWalk(s, sel, true).Some?
    requires WithinBudgets(Visited(Start(s), WholeWalk(s, sel, true).value.1, true))
    ensures var items := WholeWalk(s, sel, true).value.1;
            var manifest := SortBy(Manifest(items), PathOf);
            && GoodManifest(manifest)
            && multiset(manifest) == multiset(Manifest(items))
            && SumSizes(manifest) == FileBytes(items)
  {
    var items := WholeWalk(s, sel, true).value.1;
    WholeWalkItems(s, sel);
    ManifestSizes(items);
    ManifestDistinct(items);
    SortStrict(Manifest(items), PathOf);
    SortSorts(Manifest(items), PathOf);
    SortSum(Manifest(items));
    var manifest := SortBy(Manifest(items), PathOf);
    forall i | 0 <= i < |manifest| ensures GoodLine(manifest[i]) {
      assert manifest[i] in multiset(manifest);
      ManifestLines(items, manifest[i]);
    }
  }
}
