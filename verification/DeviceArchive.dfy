/** The budget check of a downloaded device archive before it is unpacked. */
module DeviceArchive {
  const MAX_ARCHIVE := 512 * 1024 * 1024
  const MAX_ENTRIES := 50_000
  const MAX_EXPANDED := 1024 * 1024 * 1024
  const U64_LIMIT := 0x1_0000_0000_0000_0000

  /** One entry: whether its headers agree and it is an unencrypted regular file or directory inside the application
      bundle, its path, the size its metadata declares, and the size it really expands to. */
  datatype Entry = Entry(acceptable: bool, path: string, declared: nat, actual: nat)

  datatype Verdict = Accepted | BadSize | BadCount | BadEntry | Duplicate | Overflow | TooLarge | SizeMismatch

  function Declared(entries: seq<Entry>): nat {
    if entries == [] then 0 else Declared(entries[..|entries| - 1]) + entries[|entries| - 1].declared
  }

  function Paths(entries: seq<Entry>): set<string> {
    set e | e in entries :: e.path
  }

  /** What an archive must satisfy, without any reference to how it is scanned. */
  ghost predicate Admissible(entries: seq<Entry>) {
    && (forall i :: 0 <= i < |entries| ==> entries[i].acceptable && entries[i].actual == entries[i].declared)
    && (forall i, j :: 0 <= i < j < |entries| ==> entries[i].path != entries[j].path)
    && Declared(entries) <= MAX_EXPANDED
  }

  lemma {:induction false} DeclaredGrows(entries: seq<Entry>, n: nat)
    requires n <= |entries|
    ensures Declared(entries[..n]) <= Declared(entries)
    decreases |entries|
  {
    if n < |entries| {
      DeclaredGrows(entries[..|entries| - 1], n);
      assert entries[..|entries| - 1][..n] == entries[..n];
    } else {
      assert entries[..n] == entries;
    }
  }

  lemma DeclaredNext(entries: seq<Entry>, n: nat)
    requires n < |entries|
    ensures Declared(entries[..n + 1]) == Declared(entries[..n]) + entries[n].declared
  {
    assert entries[..n + 1][..n] == entries[..n];
  }

  /** A prefix that is refused makes the whole archive inadmissible. */
  lemma PrefixAdmissible(entries: seq<Entry>, n: nat)
    requires n <= |entries|
    ensures Admissible(entries) ==> Admissible(entries[..n])
  {
    DeclaredGrows(entries, n);
  }

  /** What one more entry must satisfy. */
  lemma NextAdmissible(entries: seq<Entry>, n: nat)
    requires n < |entries| && Admissible(entries[..n])
    ensures Admissible(entries[..n + 1])
            <==> entries[n].acceptable && entries[n].actual == entries[n].declared
                 && entries[n].path !in Paths(entries[..n])
                 && Declared(entries[..n]) + entries[n].declared <= MAX_EXPANDED
    ensures Paths(entries[..n + 1]) == Paths(entries[..n]) + {entries[n].path}
  {
    var before, after, entry := entries[..n], entries[..n + 1], entries[n];
    DeclaredNext(entries, n);
    assert after == before + [entry];
    assert after[n] == entry;
    if entry.path in Paths(before) {
      var k :| 0 <= k < n && before[k].path == entry.path;
      assert after[k].path == after[n].path;
    } else {
      forall k | 0 <= k < n ensures after[k].path != entry.path {
        assert after[k] in before;
      }
    }
  }

  /** The scan accepts exactly the admissible archives of an allowed size; it never expands more than one byte beyond
      the budget, and its running totals never leave 64 bits. */
  method Validate(size: nat, entries: seq<Entry>) returns (verdict: Verdict, expanded: nat)
    requires forall i :: 0 <= i < |entries| ==> entries[i].declared < U64_LIMIT
    ensures verdict.Accepted? <==> 0 < size <= 536_870_912 && 0 < |entries| <= 50_000 && Admissible(entries)
    ensures verdict.BadSize? <==> size == 0 || size > 536_870_912
    ensures verdict.BadCount? <==> 0 < size <= 536_870_912 && !(0 < |entries| <= 50_000)
    ensures expanded <= 1_073_741_825
    ensures verdict.Accepted? ==> expanded == Declared(entries) <= 1_073_741_824
  {
    expanded := 0;
    if size == 0 || size > MAX_ARCHIVE {
      return BadSize, expanded;
    }
    if entries == [] || |entries| > MAX_ENTRIES {
      return BadCount, expanded;
    }
    var declared, seen := 0, {};
    for i := 0 to |entries|
      invariant declared == expanded == Declared(entries[..i]) <= MAX_EXPANDED
      invariant seen == Paths(entries[..i])
      invariant Admissible(entries[..i])
    {
      var entry := entries[i];
      PrefixAdmissible(entries, i + 1);
      DeclaredNext(entries, i);
      NextAdmissible(entries, i);
      if !entry.acceptable {
        return BadEntry, expanded;
      }
      if entry.path in seen {
        return Duplicate, expanded;
      }
      seen := seen + {entry.path};
      if declared + entry.declared >= U64_LIMIT {
        return Overflow, expanded;
      }
      declared := declared + entry.declared;
      if declared > MAX_EXPANDED {
        return TooLarge, expanded;
      }
      var remaining := MAX_EXPANDED - expanded;
      var copied := if entry.actual <= remaining + 1 then entry.actual else remaining + 1;
      if copied > remaining {
        return TooLarge, expanded + copied;
      }
      if copied != entry.declared {
        return SizeMismatch, expanded + copied;
      }
      expanded := expanded + copied;
    }
    assert entries[..|entries|] == entries;
    verdict := Accepted;
  }
}
