/** Bounded capture of the account configuration source: a recursive walk over a directory graph under
    several budgets. */
module SourceCapture {
  import opened Prelude
  import opened Ordering
  import opened ImportPaths

  const MAX_FILE_BYTES := 1024 * 1024
  const MAX_TOTAL_BYTES := 8 * 1024 * 1024
  const MAX_ENTRIES := 2048
  const MAX_DEPTH := 32
  const MAX_PATH_BYTES := 256 * 1024
  const MAX_INCLUDE := 64
  const PRIVATE_MODE := 0x180

  type Content = seq<bv8>

  /** A digest stands for its own preimage: hashing is taken to be injective. */
  datatype Digest = Sha256(preimage: Content) | Malformed(text: string)

  datatype ManifestEntry = ManifestEntry(path: string, size: nat, sha256: Digest, mode: nat)

  /** `length` and `stamp` are the metadata; `content` is what reading returns. */
  datatype Node =
    | File(stamp: nat, length: nat, content: Content)
    | Dir(stamp: nat, entries: seq<Link>)
    | Unsafe

  /** A name is missing when it is not valid UTF-8. */
  datatype Link = Link(name: Option<string>, node: nat)

  datatype Child = Child(name: string, node: nat)

  /** Any graph: shared nodes, cycles and dangling links included. */
  type Graph = map<nat, Node>

  datatype Error = Invalid | Limit | Changed
  datatype Result<+T> = Ok(value: T) | Err(error: Error)

  function NameOf(c: Child): string { c.name }
  function PathOf(m: ManifestEntry): string { m.path }

  predicate ValidLink(l: Link) {
    l.name.Some? && ValidName(l.name.value)
  }

  function ChildOf(l: Link): Child
    requires ValidLink(l)
  {
    Child(l.name.value, l.node)
  }

  function ChildrenOf(entries: seq<Link>): seq<Child>
    requires forall i :: 0 <= i < |entries| ==> ValidLink(entries[i])
  {
    seq(|entries|, i requires 0 <= i < |entries| => ChildOf(entries[i]))
  }

  /** The entries of a directory in name order; fails on an invalid name or when more than `remaining`. */
  method Names(entries: seq<Link>, remaining: nat) returns (r: Result<seq<Child>>)
    ensures r.Ok? <==> |entries| <= remaining && forall i :: 0 <= i < |entries| ==> ValidLink(entries[i])
    ensures r.Ok? ==> r.value == SortBy(ChildrenOf(entries), NameOf)
  {
    var result := [];
    for n := 0 to |entries|
      invariant n <= remaining
      invariant forall i :: 0 <= i < n ==> ValidLink(entries[i])
      invariant |result| == n && forall i :: 0 <= i < n ==> result[i] == ChildOf(entries[i])
    {
      if |result| >= remaining {
        return Err(Limit);
      }
      if !ValidLink(entries[n]) {
        return Err(Invalid);
      }
      result := result + [ChildOf(entries[n])];
    }
    assert result == ChildrenOf(entries);
    return Ok(SortBy(result, NameOf));
  }

  // ---- the independent description of a walk ----

  datatype Item = Item(path: string, trail: seq<string>, node: Node)

  /** A file small enough and, when it is read, as long as its metadata says. */
  predicate GoodFile(n: Node, read: bool) {
    n.File? && n.length <= MAX_FILE_BYTES && (read ==> |n.content| == n.length)
  }

  function Room(depth: nat): nat {
    if depth > MAX_DEPTH then 0 else MAX_DEPTH - depth + 1
  }

  /** Everything at and below a node in visiting order, or nothing if any of it is unacceptable. */
  function Survey(g: Graph, node: nat, path: string, trail: seq<string>, read: bool): Option<seq<Item>>
    decreases Room(|trail|), 1, 0
  {
    if |trail| > MAX_DEPTH || Bytes(path) > MAX_PATH || node !in g then None
    else
      var n := g[node];
      match n
      case Unsafe => None
      case File(_, _, _) => if GoodFile(n, read) then Some([Item(path, trail, n)]) else None
      case Dir(_, entries) =>
        if exists i :: 0 <= i < |entries| && !ValidLink(entries[i]) then None
        else
          var below := SurveyAll(g, SortBy(ChildrenOf(entries), NameOf), path, trail, read);
          if below.None? then None else Some([Item(path, trail, n)] + below.value)
  }

  function SurveyAll(g: Graph, children: seq<Child>, path: string, trail: seq<string>, read: bool): Option<seq<Item>>
    requires |trail| <= MAX_DEPTH
    decreases Room(|trail|), 0, |children|
  {
    if children == [] then Some([])
    else
      var first := Survey(g, children[0].node, path + "/" + children[0].name, trail + [children[0].name], read);
      var rest := SurveyAll(g, children[1..], path, trail, read);
      if first.None? || rest.None? then None else Some(first.value + rest.value)
  }

  function PathBytes(items: seq<Item>): nat {
    if items == [] then 0 else Bytes(items[0].path) + PathBytes(items[1..])
  }

  function FileBytes(items: seq<Item>): nat {
    if items == [] then 0 else (if items[0].node.File? then items[0].node.length else 0) + FileBytes(items[1..])
  }

  function Line(i: Item): seq<ManifestEntry> {
    match i.node
    case File(_, _, content) => [ManifestEntry(i.path, |content|, Sha256(content), PRIVATE_MODE)]
    case _ => []
  }

  function Manifest(items: seq<Item>): seq<ManifestEntry> {
    if items == [] then [] else Line(items[0]) + Manifest(items[1..])
  }

  function Stamp(n: Node): nat {
    if n.Unsafe? then 0 else n.stamp
  }

  function Records(items: seq<Item>): map<string, nat> {
    if items == [] then map[] else map[items[0].path := Stamp(items[0].node)] + Records(items[1..])
  }

  // ---- the walker ----

  datatype Tally = Tally(entries: nat, pathBytes: nat, bytes: nat, records: map<string, nat>,
                         manifest: seq<ManifestEntry>)

  predicate WithinBudgets(t: Tally) {
    t.entries <= MAX_ENTRIES && t.pathBytes <= MAX_PATH_BYTES && t.bytes <= MAX_TOTAL_BYTES
  }

  /** The counters after visiting `items`. */
  function Visited(t: Tally, items: seq<Item>, read: bool): Tally {
    Tally(t.entries + |items|, t.pathBytes + PathBytes(items), t.bytes + FileBytes(items),
          t.records + Records(items), if read then t.manifest + Manifest(items) else t.manifest)
  }

  lemma {:induction false} SumsConcat(a: seq<Item>, b: seq<Item>)
    ensures PathBytes(a + b) == PathBytes(a) + PathBytes(b)
    ensures FileBytes(a + b) == FileBytes(a) + FileBytes(b)
  {
    if a == [] {
      assert a + b == b;
    } else {
      assert (a + b)[1..] == a[1..] + b && (a + b)[0] == a[0];
      SumsConcat(a[1..], b);
    }
  }

  lemma {:induction false} ManifestConcat(a: seq<Item>, b: seq<Item>)
    ensures Manifest(a + b) == Manifest(a) + Manifest(b)
  {
    if a == [] {
      assert a + b == b;
    } else {
      assert (a + b)[1..] == a[1..] + b;
      ManifestConcat(a[1..], b);
      assert Manifest(a + b) == Line(a[0]) + (Manifest(a[1..]) + Manifest(b));
    }
  }

  lemma {:induction false} RecordsConcat(a: seq<Item>, b: seq<Item>)
    ensures Records(a + b) == Records(a) + Records(b)
  {
    if a == [] {
      assert a + b == b;
    } else {
      assert (a + b)[0] == a[0] && (a + b)[1..] == a[1..] + b;
      RecordsConcat(a[1..], b);
      UnionAssociative(map[a[0].path := Stamp(a[0].node)], Records(a[1..]), Records(b));
      assert Records(a + b) == map[a[0].path := Stamp(a[0].node)] + (Records(a[1..]) + Records(b));
    }
  }

  lemma ConcatAssociative<T>(a: seq<T>, b: seq<T>, c: seq<T>)
    ensures (a + b) + c == a + (b + c)
  {
  }

  lemma UnionAssociative(a: map<string, nat>, b: map<string, nat>, c: map<string, nat>)
    ensures (a + b) + c == a + (b + c)
  {
  }

  lemma VisitedConcat(t: Tally, a: seq<Item>, b: seq<Item>, read: bool)
    ensures Visited(Visited(t, a, read), b, read) == Visited(t, a + b, read)
    ensures WithinBudgets(Visited(t, a + b, read)) ==> WithinBudgets(Visited(t, a, read))
  {
    var v := Visited(Visited(t, a, read), b, read);
    var w := Visited(t, a + b, read);
    assert v.pathBytes == w.pathBytes && v.bytes == w.bytes by {
      SumsConcat(a, b);
    }
    assert v.manifest == w.manifest by {
      ManifestConcat(a, b);
      ConcatAssociative(t.manifest, Manifest(a), Manifest(b));
    }
    assert v.records == w.records by {
      RecordsConcat(a, b);
      UnionAssociative(t.records, Records(a), Records(b));
    }
  }

  lemma VisitedOne(t: Tally, path: string, trail: seq<string>, n: Node, read: bool)
    requires !n.Unsafe?
    ensures var v := Visited(t, [Item(path, trail, n)], read);
            && v.entries == t.entries + 1 && v.pathBytes == t.pathBytes + Bytes(path)
            && v.bytes == t.bytes + (if n.File? then n.length else 0)
            && v.records == t.records[path := n.stamp]
            && v.manifest == if read then t.manifest + Line(Item(path, trail, n)) else t.manifest
  {
    var one := [Item(path, trail, n)];
    assert one[1..] == [];
    assert PathBytes(one) == Bytes(one[0].path) + PathBytes(one[1..]);
    assert FileBytes(one) == (if n.File? then n.length else 0) + FileBytes(one[1..]);
    assert Manifest(one) == Line(one[0]) + Manifest(one[1..]);
    assert Records(one) == map[path := n.stamp] + Records(one[1..]);
  }

  lemma {:induction false} SurveyAllLength(g: Graph, children: seq<Child>, path: string, trail: seq<string>, read: bool)
    requires |trail| <= MAX_DEPTH
    ensures var s := SurveyAll(g, children, path, trail, read); s.Some? ==> |s.value| >= |children|
    decreases |children|
  {
    if children != [] {
      SurveyAllLength(g, children[1..], path, trail, read);
    }
  }

  class Walker {
    var entries: nat
    var pathBytes: nat
    var bytes: nat
    var records: map<string, nat>
    var manifest: seq<ManifestEntry>
    const read: bool

    constructor (read: bool)
      ensures this.read == read
      ensures State() == Tally(0, 0, 0, map[], [])
    {
      this.read := read;
      entries, pathBytes, bytes, records, manifest := 0, 0, 0, map[], [];
    }

    ghost function State(): Tally
      reads this
    {
      Tally(entries, pathBytes, bytes, records, manifest)
    }

    /** Succeeds exactly when the survey does and every budget holds at the end, and then has visited
        exactly the surveyed items.  The subtractions from the budgets never underflow. */
    method Entry(g: Graph, node: nat, path: string, depth: nat, ghost trail: seq<string>) returns (r: Result<()>)
      requires WithinBudgets(State()) && depth == |trail|
      modifies this
      ensures var s := Survey(g, node, path, trail, read);
              && (r.Ok? <==> s.Some? && WithinBudgets(Visited(old(State()), s.value, read)))
              && (r.Ok? ==> State() == Visited(old(State()), s.value, read))
      decreases Room(depth), 1
    {
      entries := entries + 1;
      pathBytes := pathBytes + Bytes(path);
      if pathBytes > MAX_PATH_BYTES {
        return Err(Limit);
      }
      if entries > MAX_ENTRIES || depth > MAX_DEPTH || Bytes(path) > MAX_PATH {
        return Err(Limit);
      }
      if node !in g || g[node].Unsafe? {
        return Err(Invalid);
      }
      var n := g[node];
      ghost var here := [Item(path, trail, n)];
      VisitedOne(old(State()), path, trail, n, read);
      if n.Dir? {
        records := records[path := n.stamp];
        assert State() == Visited(old(State()), here, read);
        var children := Names(n.entries, MAX_ENTRIES - entries);
        if children.Err? {
          if forall i :: 0 <= i < |n.entries| ==> ValidLink(n.entries[i]) {
            SortSorts(ChildrenOf(n.entries), NameOf);
            SurveyAllLength(g, SortBy(ChildrenOf(n.entries), NameOf), path, trail, read);
          }
          return Err(children.error);
        }
        ghost var below := SurveyAll(g, children.value, path, trail, read);
        if below.Some? {
          VisitedConcat(old(State()), here, below.value, read);
        }
        r := Children(g, children.value, path, depth, trail);
      } else {
        if n.length > MAX_FILE_BYTES || n.length > MAX_TOTAL_BYTES - bytes {
          return Err(Limit);
        }
        records := records[path := n.stamp];
        if read {
          if |n.content| > MAX_FILE_BYTES || |n.content| > MAX_TOTAL_BYTES - bytes {
            return Err(Limit);
          }
          if |n.content| != n.length {
            return Err(Changed);
          }
          manifest := manifest + [ManifestEntry(path, |n.content|, Sha256(n.content), PRIVATE_MODE)];
        }
        bytes := bytes + n.length;
        r := Ok(());
      }
    }

    method Children(g: Graph, children: seq<Child>, path: string, depth: nat, ghost trail: seq<string>)
      returns (r: Result<()>)
      requires WithinBudgets(State()) && depth <= MAX_DEPTH && depth == |trail|
      modifies this
      ensures var s := SurveyAll(g, children, path, trail, read);
              && (r.Ok? <==> s.Some? && WithinBudgets(Visited(old(State()), s.value, read)))
              && (r.Ok? ==> State() == Visited(old(State()), s.value, read))
      decreases Room(depth), 0
    {
      ghost var all := SurveyAll(g, children, path, trail, read);
      assert children[0..] == children;
      for k := 0 to |children|
        invariant WithinBudgets(State())
        invariant var rest := SurveyAll(g, children[k..], path, trail, read);
                  && (rest.Some? <==> all.Some?)
                  && (all.Some? ==> Visited(State(), rest.value, read) == Visited(old(State()), all.value, read))
      {
        assert children[k..][1..] == children[k + 1..];
        var c := children[k];
        ghost var first := Survey(g, c.node, path + "/" + c.name, trail + [c.name], read);
        ghost var rest := SurveyAll(g, children[k + 1..], path, trail, read);
        ghost var before := State();
        if first.Some? && rest.Some? {
          VisitedConcat(before, first.value, rest.value, read);
        }
        r := Entry(g, c.node, path + "/" + c.name, depth + 1, trail + [c.name]);
        if r.Err? {
          return;
        }
      }
      assert children[|children|..] == [];
      assert Visited(State(), [], read) == State();
      r := Ok(());
    }
  }

  // ---- selection of the roots and the two walks of a capture ----

  datatype Selection = Selection(includeResumeHistory: bool, excludeSkills: bool)

  const NORMAL := ["settings.json", "CLAUDE.md", "agents", "skills", "plugins", "hooks", "rules"]
  const HISTORY := ["projects", "sessions", "history.jsonl", "file-history", "plans", "tasks", "session-env"]

  predicate EndsWithMd(name: string) {
    |name| >= 3 && name[|name| - 3..] == ".md"
  }

  predicate Wanted(name: string, sel: Selection) {
    name in NORMAL || (sel.includeResumeHistory && name in HISTORY)
  }

  predicate Considered(name: string, sel: Selection) {
    !(name == "skills" && sel.excludeSkills) && (Wanted(name, sel) || EndsWithMd(name))
  }

  predicate IsSafe(g: Graph, node: nat) {
    node in g && !g[node].Unsafe?
  }

  /** The considered children, other Markdown only as files; fails when a considered one is unsafe. */
  function Choose(g: Graph, children: seq<Child>, sel: Selection): Option<seq<Child>> {
    if children == [] then Some([])
    else
      var c := children[0];
      var rest := Choose(g, children[1..], sel);
      if rest.None? then None
      else if !Considered(c.name, sel) then rest
      else if !IsSafe(g, c.node) then None
      else if Wanted(c.name, sel) || g[c.node].File? then Some([c] + rest.value)
      else rest
  }

  method Selected(g: Graph, entries: seq<Link>, sel: Selection) returns (r: Result<seq<Child>>)
    ensures r.Ok? <==> Roots(g, entries, sel).Some?
    ensures r.Ok? ==> r.value == Roots(g, entries, sel).value
  {
    var names := Names(entries, MAX_ENTRIES);
    if names.Err? {
      return Err(names.error);
    }
    var children := names.value;
    var paths := [];
    assert children[0..] == children;
    for k := 0 to |children|
      invariant Choose(g, children, sel).Some? <==> Choose(g, children[k..], sel).Some?
      invariant Choose(g, children, sel).Some? ==>
                  Choose(g, children, sel).value == paths + Choose(g, children[k..], sel).value
    {
      assert children[k..][1..] == children[k + 1..];
      var c := children[k];
      if Considered(c.name, sel) {
        if !IsSafe(g, c.node) {
          return Err(Invalid);
        }
        if Wanted(c.name, sel) || g[c.node].File? {
          paths := paths + [c];
        }
      }
    }
    assert children[|children|..] == [];
    if |paths| > MAX_INCLUDE {
      return Err(Limit);
    }
    return Ok(paths);
  }

  function Roots(g: Graph, entries: seq<Link>, sel: Selection): Option<seq<Child>> {
    if |entries| > MAX_ENTRIES || exists i :: 0 <= i < |entries| && !ValidLink(entries[i]) then None
    else
      var chosen := Choose(g, SortBy(ChildrenOf(entries), NameOf), sel);
      if chosen.Some? && |chosen.value| > MAX_INCLUDE then None else chosen
  }

  /** A source home: its own identity and the source directory, if there is one. */
  datatype Source = Source(graph: Graph, home: nat, root: Option<nat>)

  function Start(s: Source): Tally {
    Tally(0, 0, 0,
          map["$HOME" := s.home]
          + (if s.root.Some? && s.root.value in s.graph then map[ROOT := Stamp(s.graph[s.root.value])] else map[]),
          [])
  }

  /** The roots and the items of a whole walk. */
  function WholeWalk(s: Source, sel: Selection, read: bool): Option<(seq<Child>, seq<Item>)> {
    if s.root.None? then Some(([], []))
    else if s.root.value !in s.graph || !s.graph[s.root.value].Dir? then None
    else
      var roots := Roots(s.graph, s.graph[s.root.value].entries, sel);
      if roots.None? then None
      else
        var items := SurveyAll(s.graph, roots.value, ROOT, [], read);
        if items.None? then None else Some((roots.value, items.value))
  }

  method Walk(s: Source, sel: Selection, read: bool) returns (r: Result<(seq<Child>, Tally)>)
    ensures var w := WholeWalk(s, sel, read);
            && (r.Ok? <==> w.Some? && WithinBudgets(Visited(Start(s), w.value.1, read)))
            && (r.Ok? ==> r.value == (w.value.0, Visited(Start(s), w.value.1, read)))
  {
    var walker := new Walker(read);
    walker.records := Start(s).records;
    if s.root.None? {
      assert Visited(Start(s), [], read) == Start(s);
      return Ok(([], Tally(walker.entries, walker.pathBytes, walker.bytes, walker.records, walker.manifest)));
    }
    if s.root.value !in s.graph || !s.graph[s.root.value].Dir? {
      return Err(Invalid);
    }
    var chosen := Selected(s.graph, s.graph[s.root.value].entries, sel);
    if chosen.Err? {
      return Err(chosen.error);
    }
    var done := walker.Children(s.graph, chosen.value, ROOT, 0, []);
    if done.Err? {
      return Err(done.error);
    }
    return Ok((chosen.value, Tally(walker.entries, walker.pathBytes, walker.bytes, walker.records, walker.manifest)));
  }

  /** The selected entries by name: the two walks may number their nodes differently. */
  function NamesOf(children: seq<Child>): seq<string> {
    seq(|children|, i requires 0 <= i < |children| => children[i].name)
  }

  datatype Captured = Captured(roots: seq<string>, manifest: seq<ManifestEntry>, totalBytes: nat)

  /** Reads everything once, walks again without reading and compares; the manifest is then sorted. */
  method Capture(first: Source, second: Source, sel: Selection) returns (r: Result<Captured>)
    ensures var a, b := WholeWalk(first, sel, true), WholeWalk(second, sel, false);
            && (r.Ok? <==> && a.Some? && WithinBudgets(Visited(Start(first), a.value.1, true))
                           && b.Some? && WithinBudgets(Visited(Start(second), b.value.1, false))
                           && NamesOf(a.value.0) == NamesOf(b.value.0)
                           && Start(first).records + Records(a.value.1) == Start(second).records + Records(b.value.1))
            && (r.Ok? ==> r.value == Captured(NamesOf(a.value.0), SortBy(Manifest(a.value.1), PathOf),
                                              FileBytes(a.value.1)))
  {
    var a := Walk(first, sel, true);
    if a.Err? {
      return Err(a.error);
    }
    var b := Walk(second, sel, false);
    if b.Err? {
      return Err(b.error);
    }
    if a.value.1.records != b.value.1.records || NamesOf(a.value.0) != NamesOf(b.value.0) {
      return Err(Changed);
    }
    assert a.value.1.manifest == Manifest(WholeWalk(first, sel, true).value.1);
    return Ok(Captured(NamesOf(a.value.0), SortBy(a.value.1.manifest, PathOf), a.value.1.bytes));
  }
}
