/** Path text as the account import reads and checks it. */
module ImportPaths {
  import opened Prelude

  const MAX_PATH := 1024
  const ROOT := "~/.claude"

  function CharBytes(c: char): nat {
    var n := c as int;
    if n < 0x80 then 1 else if n < 0x800 then 2 else if n < 0x1_0000 then 3 else 4
  }

  /** Length in UTF-8 bytes. */
  function Bytes(s: string): nat {
    if s == [] then 0 else CharBytes(s[0]) + Bytes(s[1..])
  }

  lemma {:induction false} BytesConcat(a: string, b: string)
    ensures Bytes(a + b) == Bytes(a) + Bytes(b)
  {
    if a == [] {
      assert a + b == b;
    } else {
      assert (a + b)[1..] == a[1..] + b;
      BytesConcat(a[1..], b);
    }
  }

  predicate IsControl(c: char) {
    (c as int) < 0x20 || 0x7f <= (c as int) < 0xa0
  }

  /** The Unicode White_Space property. */
  predicate IsSpace(c: char) {
    var n := c as int;
    || 0x09 <= n <= 0x0d || n == 0x20 || n == 0x85 || n == 0xa0 || n == 0x1680 || 0x2000 <= n <= 0x200a
    || n == 0x2028 || n == 0x2029 || n == 0x202f || n == 0x205f || n == 0x3000
  }

  predicate Clean(s: string) {
    forall i :: 0 <= i < |s| ==> !IsControl(s[i]) && s[i] != '\\'
  }

  /** A directory entry name the capture accepts. */
  predicate ValidName(name: string) {
    && name != [] && name != "." && name != ".."
    && !IsSpace(name[0]) && !IsSpace(name[|name| - 1])
    && Clean(name)
    && '/' !in name
  }

  /** The parts between slashes; a path with n slashes has n + 1 of them. */
  function Components(path: string): (r: seq<string>)
    ensures |r| >= 1
  {
    if path == [] then [""]
    else
      var rest := Components(path[1..]);
      if path[0] == '/' then [""] + rest else [[path[0]] + rest[0]] + rest[1..]
  }

  lemma {:induction false} PlainComponents(name: string)
    requires '/' !in name
    ensures Components(name) == [name]
  {
    if name != [] {
      PlainComponents(name[1..]);
      assert [name[0]] + name[1..] == name;
    }
  }

  /** Joining with a slash appends one part. */
  lemma {:induction false} ChildComponents(path: string, name: string)
    requires '/' !in name
    ensures Components(path + "/" + name) == Components(path) + [name]
  {
    if path == [] {
      PlainComponents(name);
      assert (path + "/" + name)[1..] == name;
    } else {
      ChildComponents(path[1..], name);
      assert (path + "/" + name)[1..] == path[1..] + "/" + name;
    }
  }

  predicate ValidComponent(c: string) {
    c != [] && c != "." && c != ".."
  }

  /** What the receipt check asks of every manifest path. */
  predicate ValidPath(path: string) {
    && ROOT + "/" <= path
    && Bytes(path) <= MAX_PATH
    && Clean(path)
    && forall c :: c in Components(path) ==> ValidComponent(c)
  }

  /** The path text of a trail of names below the root. */
  function Render(trail: seq<string>): string {
    if trail == [] then ROOT else Render(trail[..|trail| - 1]) + "/" + trail[|trail| - 1]
  }

  lemma RenderChild(trail: seq<string>, name: string)
    ensures Render(trail + [name]) == Render(trail) + "/" + name
  {
    assert (trail + [name])[..|trail|] == trail;
  }

  ghost predicate ValidTrail(trail: seq<string>) {
    forall i :: 0 <= i < |trail| ==> ValidName(trail[i])
  }

  lemma RootComponents()
    ensures Components(ROOT) == ["~", ".claude"]
  {
    PlainComponents("~");
    PlainComponents(".claude");
    ChildComponents("~", ".claude");
    assert "~" + "/" + ".claude" == ROOT;
  }

  lemma {:induction false} RenderComponents(trail: seq<string>)
    requires ValidTrail(trail)
    ensures Components(Render(trail)) == ["~", ".claude"] + trail
  {
    if trail == [] {
      RootComponents();
    } else {
      var up, name := trail[..|trail| - 1], trail[|trail| - 1];
      RenderComponents(up);
      ChildComponents(Render(up), name);
      assert ["~", ".claude"] + up + [name] == ["~", ".claude"] + trail;
    }
  }

  /** Names without slashes make path building injective. */
  lemma RenderInjective(s: seq<string>, t: seq<string>)
    requires ValidTrail(s) && ValidTrail(t) && Render(s) == Render(t)
    ensures s == t
  {
    RenderComponents(s);
    RenderComponents(t);
    assert s == (["~", ".claude"] + s)[2..] && t == (["~", ".claude"] + t)[2..];
  }

  lemma CleanConcat(a: string, b: string)
    requires Clean(a) && Clean(b)
    ensures Clean(a + b)
  {
  }

  lemma {:induction false} RenderClean(trail: seq<string>)
    requires ValidTrail(trail)
    ensures Clean(Render(trail))
  {
    if trail != [] {
      var up, name := trail[..|trail| - 1], trail[|trail| - 1];
      RenderClean(up);
      CleanConcat(Render(up), "/");
      CleanConcat(Render(up) + "/", name);
    }
  }

  lemma {:induction false} RenderRooted(trail: seq<string>)
    requires trail != []
    ensures ROOT + "/" <= Render(trail)
  {
    var up := trail[..|trail| - 1];
    if up != [] {
      RenderRooted(up);
    }
  }

  /** The path of every trail of valid names passes the receipt check, its length apart. */
  lemma RenderValid(trail: seq<string>)
    requires ValidTrail(trail) && trail != [] && Bytes(Render(trail)) <= MAX_PATH
    ensures ValidPath(Render(trail))
  {
    RenderRooted(trail);
    RenderClean(trail);
    RenderComponents(trail);
  }
}
