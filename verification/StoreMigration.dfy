/** The transactional move of the legacy Device store: hard link, unlink, and rollback on failure, over a
    filesystem whose operations may fail at any point. */
module StoreMigration {
  import opened Prelude

  /** Paths are only compared, and contents only carried around, so both are numbered. */
  type Path = nat
  type Content = nat
  type Files = map<Path, Content>

  datatype Move = Move(source: Path, destination: Path)

  datatype Outcome = Moved | RolledBack | Stranded

  /** One file moved. */
  function Shift(fs: Files, m: Move): Files {
    if m.source in fs then (fs - {m.source})[m.destination := fs[m.source]] else fs
  }

  /** The layout after the first `k` moves. */
  function ShiftTo(fs: Files, moves: seq<Move>, k: nat): Files
    requires k <= |moves|
  {
    if k == 0 then fs else Shift(ShiftTo(fs, moves, k - 1), moves[k - 1])
  }

  predicate IsSource(moves: seq<Move>, p: Path) {
    exists i :: 0 <= i < |moves| && moves[i].source == p
  }

  /** Distinct names in one directory, moved to distinct names in another that does not overlap it. */
  ghost predicate Separate(fs: Files, moves: seq<Move>) {
    && (forall i :: 0 <= i < |moves| ==> moves[i].source in fs)
    && (forall i, j :: 0 <= i < j < |moves| ==>
          moves[i].source != moves[j].source && moves[i].destination != moves[j].destination)
    && (forall i, j :: 0 <= i < |moves| && 0 <= j < |moves| ==> moves[i].source != moves[j].destination)
  }

  ghost predicate Free(fs: Files, moves: seq<Move>, k: nat)
    requires k <= |moves|
  {
    forall i :: 0 <= i < k ==> moves[i].destination !in fs
  }

  /** Every listed file still exists under one of its two names with its content, and everything else that
      existed is as it was: nothing is overwritten. */
  ghost predicate Preserved(start: Files, now: Files, moves: seq<Move>) {
    && (forall i :: 0 <= i < |moves| && moves[i].source in start ==>
          || (moves[i].source in now && now[moves[i].source] == start[moves[i].source])
          || (moves[i].destination in now && now[moves[i].destination] == start[moves[i].source]))
    && (forall p :: p in start && !IsSource(moves, p) ==> p in now && now[p] == start[p])
  }

  ghost predicate Covers(now: Files, base: Files) {
    forall p :: p in base ==> p in now && now[p] == base[p]
  }

  /** Where the listed files are after the first `k` moves. */
  lemma {:induction false} Placed(start: Files, moves: seq<Move>, k: nat)
    requires Separate(start, moves) && k <= |moves|
    ensures var now := ShiftTo(start, moves, k);
            && (forall i :: 0 <= i < k ==> moves[i].source !in now && moves[i].destination in now
                                           && now[moves[i].destination] == start[moves[i].source])
            && (forall i :: k <= i < |moves| ==>
                  moves[i].source in now && now[moves[i].source] == start[moves[i].source])
  {
    if k > 0 {
      Placed(start, moves, k - 1);
    }
  }

  /** Everything else is where it was. */
  lemma {:induction false} Elsewhere(start: Files, moves: seq<Move>, k: nat, p: Path)
    requires Separate(start, moves) && k <= |moves|
    requires !IsSource(moves, p) && forall i :: 0 <= i < k ==> moves[i].destination != p
    ensures var now := ShiftTo(start, moves, k);
            (p in now <==> p in start) && (p in start ==> now[p] == start[p])
  {
    if k > 0 {
      Elsewhere(start, moves, k - 1, p);
      assert moves[k - 1].source != p;
    }
  }

  /** The whole migration: every listed file is under its new name only, and nothing else changed. */
  lemma MovedExactly(start: Files, moves: seq<Move>, p: Path)
    requires Separate(start, moves) && Free(start, moves, |moves|)
    ensures var now := ShiftTo(start, moves, |moves|);
            && (IsSource(moves, p) ==> p !in now)
            && (forall i :: 0 <= i < |moves| && moves[i].destination == p ==>
                  p in now && now[p] == start[moves[i].source])
            && (!IsSource(moves, p) && (forall i :: 0 <= i < |moves| ==> moves[i].destination != p) ==>
                  (p in now <==> p in start) && (p in start ==> now[p] == start[p]))
  {
    Placed(start, moves, |moves|);
    if !IsSource(moves, p) && forall i :: 0 <= i < |moves| ==> moves[i].destination != p {
      Elsewhere(start, moves, |moves|, p);
    }
  }

  /** Any filesystem that covers an intermediate layout preserves everything. */
  lemma CoveringPreserves(start: Files, moves: seq<Move>, k: nat, now: Files)
    requires Separate(start, moves) && k <= |moves| && Free(start, moves, k)
    requires Covers(now, ShiftTo(start, moves, k))
    ensures Preserved(start, now, moves)
  {
    Placed(start, moves, k);
    forall p | p in start && !IsSource(moves, p) ensures p in now && now[p] == start[p] {
      Elsewhere(start, moves, k, p);
    }
  }

  /** A move undone: the layout before it is the layout after it with the two names exchanged back. */
  lemma Undone(start: Files, moves: seq<Move>, k: nat)
    requires Separate(start, moves) && 0 < k <= |moves| && Free(start, moves, k)
    ensures var m := moves[k - 1];
            ShiftTo(start, moves, k - 1) == ShiftTo(start, moves, k)[m.source := start[m.source]] - {m.destination}
  {
    Placed(start, moves, k - 1);
    Elsewhere(start, moves, k - 1, moves[k - 1].destination);
  }

  /** The free destination of move `k` and its source, in the layout before it. */
  lemma NextMove(start: Files, moves: seq<Move>, k: nat)
    requires Separate(start, moves) && k < |moves| && Free(start, moves, k)
    requires moves[k].destination !in ShiftTo(start, moves, k)
    ensures var base, m := ShiftTo(start, moves, k), moves[k];
            && m.source in base && base[m.source] == start[m.source] && m.destination !in start
            && ShiftTo(start, moves, k + 1) == base[m.destination := start[m.source]] - {m.source}
            && base[m.destination := start[m.source]] - {m.destination} == base
  {
    Placed(start, moves, k);
    Elsewhere(start, moves, k, moves[k].destination);
  }

  /** Earlier moves do not decide whether the destination of move `k` is taken. */
  lemma DestinationTaken(start: Files, moves: seq<Move>, k: nat)
    requires Separate(start, moves) && k < |moves|
    ensures moves[k].destination in ShiftTo(start, moves, k) <==> moves[k].destination in start
  {
    assert !IsSource(moves, moves[k].destination);
    Elsewhere(start, moves, k, moves[k].destination);
  }

  /** The layout between the link and the unlink of move `k` still covers the layout before it. */
  lemma LinkedCovers(start: Files, moves: seq<Move>, k: nat)
    requires Separate(start, moves) && k < |moves| && Free(start, moves, k)
    requires moves[k].destination !in ShiftTo(start, moves, k)
    ensures var base, m := ShiftTo(start, moves, k), moves[k];
            && m.source in base && base[m.source] == start[m.source] && m.destination !in start
            && Preserved(start, base, moves)
            && Preserved(start, base[m.destination := start[m.source]], moves)
            && Preserved(start, ShiftTo(start, moves, k + 1), moves)
            && ShiftTo(start, moves, k + 1) == base[m.destination := start[m.source]] - {m.source}
            && base[m.destination := start[m.source]] - {m.destination} == base
  {
    NextMove(start, moves, k);
    var base, m := ShiftTo(start, moves, k), moves[k];
    CoveringPreserves(start, moves, k, base);
    CoveringPreserves(start, moves, k, base[m.destination := start[m.source]]);
    CoveringPreserves(start, moves, k + 1, ShiftTo(start, moves, k + 1));
  }

  /** What a failed move of `m` may leave: nothing, or one extra link of that very file. */
  ghost predicate Leftover(extra: Files, start: Files, m: Move) {
    extra == map[] || (m.source in start && m.destination !in start && extra == map[m.destination := start[m.source]])
  }

  /** The layout after the first `j` moves, beside a leftover. */
  ghost predicate Beside(now: Files, start: Files, moves: seq<Move>, j: nat, extra: Files)
    requires j <= |moves|
  {
    now == ShiftTo(start, moves, j) + extra
  }

  /** The layout before move `k`, alone or with the new link of its file. */
  lemma LeftBehind(start: Files, moves: seq<Move>, k: nat)
    requires Separate(start, moves) && k < |moves|
    ensures var base, m := ShiftTo(start, moves, k), moves[k];
            && Beside(base, start, moves, k, map[])
            && Beside(base[m.destination := start[m.source]], start, moves, k, map[m.destination := start[m.source]])
  {
    var base, m := ShiftTo(start, moves, k), moves[k];
    assert base + map[] == base;
    assert base + map[m.destination := start[m.source]] == base[m.destination := start[m.source]];
  }

  lemma BesideStart(now: Files, start: Files, moves: seq<Move>, extra: Files)
    requires Beside(now, start, moves, 0, extra)
    ensures now == start + extra && (extra == map[] ==> now == start)
  {
  }

  /** The leftover of move `k` never collides with an earlier layout. */
  lemma LeftoverApart(start: Files, moves: seq<Move>, j: nat, k: nat, extra: Files)
    requires Separate(start, moves) && j <= k < |moves| && Leftover(extra, start, moves[k])
    ensures extra.Keys !! ShiftTo(start, moves, j).Keys
    ensures j > 0 ==> moves[j - 1].source !in extra && moves[j - 1].destination !in extra
  {
    if extra != map[] {
      assert !IsSource(moves, moves[k].destination);
      Elsewhere(start, moves, j, moves[k].destination);
    }
  }

  lemma BesidePreserved(start: Files, moves: seq<Move>, j: nat, k: nat, extra: Files)
    requires Separate(start, moves) && j <= k < |moves| && Free(start, moves, j) && Leftover(extra, start, moves[k])
    ensures Preserved(start, ShiftTo(start, moves, j) + extra, moves)
    ensures j > 0 ==>
              var m := moves[j - 1];
              Preserved(start, (ShiftTo(start, moves, j) + extra)[m.source := start[m.source]], moves)
  {
    LeftoverApart(start, moves, j, k, extra);
    CoveringPreserves(start, moves, j, ShiftTo(start, moves, j) + extra);
    if j > 0 {
      Placed(start, moves, j);
      CoveringPreserves(start, moves, j,
                        (ShiftTo(start, moves, j) + extra)[moves[j - 1].source := start[moves[j - 1].source]]);
    }
  }

  /** Undoing move `j - 1` beside the leftover of a later move. */
  lemma UndoBeside(start: Files, moves: seq<Move>, j: nat, k: nat, extra: Files)
    requires Separate(start, moves) && 0 < j <= k < |moves| && Free(start, moves, j) && Leftover(extra, start, moves[k])
    ensures var m, now := moves[j - 1], ShiftTo(start, moves, j) + extra;
            && m.destination in now && now[m.destination] == start[m.source] && m.source !in now
            && m.source != m.destination
            && now[m.source := start[m.source]] - {m.destination} == ShiftTo(start, moves, j - 1) + extra
  {
    Placed(start, moves, j);
    Undone(start, moves, j);
    LeftoverApart(start, moves, j, k, extra);
  }

  /** A filesystem under migration; `intact` says that every state since the start preserved the files. */
  class Migration {
    var files: Files
    const moves: seq<Move>
    /** Which of the filesystem's operations, counted from the start, will fail for a reason of its own. */
    const faults: nat -> bool
    var operations: nat
    ghost const start: Files
    ghost var intact: bool

    /** No operation fails for a reason of its own. */
    ghost predicate Faultless() {
      forall n :: !faults(n)
    }

    /** Two operations in a row fail for reasons of their own. */
    ghost predicate DoubleFault() {
      exists n: nat :: faults(n) && faults(n + 1)
    }

    constructor (files: Files, moves: seq<Move>, faults: nat -> bool)
      ensures this.files == files && this.moves == moves && this.faults == faults && start == files && intact
    {
      this.files := files;
      this.moves := moves;
      this.faults := faults;
      operations := 0;
      start := files;
      intact := true;
    }

    /** Never replaces an existing name; may fail for any reason. */
    method HardLink(source: Path, destination: Path) returns (ok: bool)
      modifies this
      ensures ok <==> !faults(old(operations)) && source in old(files) && destination !in old(files)
      ensures operations == old(operations) + 1
      ensures ok ==> source in old(files) && destination !in old(files)
                     && files == old(files)[destination := old(files)[source]]
      ensures !ok ==> files == old(files)
      ensures intact == (old(intact) && Preserved(start, files, moves))
    {
      ok := !faults(operations) && source in files && destination !in files;
      operations := operations + 1;
      if ok {
        files := files[destination := files[source]];
      }
      intact := intact && Preserved(start, files, moves);
    }

    method RemoveFile(path: Path) returns (ok: bool)
      modifies this
      ensures ok <==> !faults(old(operations)) && path in old(files)
      ensures operations == old(operations) + 1
      ensures ok ==> path in old(files) && files == old(files) - {path}
      ensures !ok ==> files == old(files)
      ensures intact == (old(intact) && Preserved(start, files, moves))
    {
      ok := !faults(operations) && path in files;
      operations := operations + 1;
      if ok {
        files := files - {path};
      }
      intact := intact && Preserved(start, files, moves);
    }

    /** Link, unlink, and the removal of the link if the unlink fails. */
    method Transfer(m: Move) returns (ok: bool, ghost extra: Files)
      requires m.source in files && m.destination !in files
      modifies this
      ensures var c := old(files)[m.source];
              && (ok ==> extra == map[] && files == old(files)[m.destination := c] - {m.source})
              && (!ok ==> extra == map[] || extra == map[m.destination := c])
              && (!ok ==> files == if extra == map[] then old(files) else old(files)[m.destination := c])
      ensures var c := old(files)[m.source];
              old(intact)
              && Preserved(start, old(files), moves)
              && Preserved(start, old(files)[m.destination := c], moves)
              && Preserved(start, old(files)[m.destination := c] - {m.source}, moves)
              ==> intact
      ensures ok <==> !faults(old(operations)) && !faults(old(operations) + 1)
      ensures extra != map[] ==> faults(old(operations) + 1) && faults(old(operations) + 2)
    {
      extra := map[];
      ghost var c := files[m.source];
      ok := HardLink(m.source, m.destination);
      if ok {
        ok := RemoveFile(m.source);
        if !ok {
          var cleaned := RemoveFile(m.destination);
          if cleaned {
            assert files == old(files);
          } else {
            extra := map[m.destination := c];
            assert m.destination in extra;
          }
        }
      }
    }

    method MoveOne(k: nat) returns (ok: bool, ghost extra: Files)
      requires Separate(start, moves) && k < |moves| && Free(start, moves, k)
      requires files == ShiftTo(start, moves, k) && Preserved(start, files, moves)
      modifies this
      ensures Preserved(start, files, moves)
      ensures ok ==> Free(start, moves, k + 1) && files == ShiftTo(start, moves, k + 1) && extra == map[]
      ensures !ok ==> Leftover(extra, start, moves[k]) && Beside(files, start, moves, k, extra)
      ensures Faultless() ==> (ok <==> moves[k].destination !in start) && (!ok ==> extra == map[])
      ensures extra != map[] ==> DoubleFault()
      ensures old(intact) ==> intact
    {
      LeftBehind(start, moves, k);
      DestinationTaken(start, moves, k);
      if moves[k].destination in files {
        return false, map[];
      }
      LinkedCovers(start, moves, k);
      ghost var n := operations + 1;
      ok, extra := Transfer(moves[k]);
      assert extra != map[] ==> faults(n) && faults(n + 1);
    }

    method UndoOne(j: nat, ghost k: nat, ghost extra: Files) returns (ok: bool)
      requires Separate(start, moves) && 0 < j <= k < |moves| && Free(start, moves, k)
      requires Leftover(extra, start, moves[k])
      requires Beside(files, start, moves, j, extra)
      modifies this
      ensures ok ==> Beside(files, start, moves, j - 1, extra)
      ensures Faultless() ==> ok
      ensures old(intact) ==> intact
      ensures Preserved(start, files, moves)
    {
      var m := moves[j - 1];
      assert Free(start, moves, j) && Free(start, moves, j - 1);
      UndoBeside(start, moves, j, k, extra);
      BesidePreserved(start, moves, j, k, extra);
      BesidePreserved(start, moves, j - 1, k, extra);
      ghost var base := files;
      ok := HardLink(m.destination, m.source);
      if ok {
        assert files == base[m.source := start[m.source]];
        ok := RemoveFile(m.destination);
        assert ok ==> files == ShiftTo(start, moves, j - 1) + extra;
      }
    }

    /** Undoes the first `k` moves in reverse order, stopping at the first failure. */
    method Rollback(k: nat, ghost extra: Files) returns (ok: bool)
      requires Separate(start, moves) && k < |moves| && Free(start, moves, k) && Leftover(extra, start, moves[k])
      requires Beside(files, start, moves, k, extra) && Preserved(start, files, moves)
      modifies this
      ensures ok ==> Beside(files, start, moves, 0, extra)
      ensures Faultless() ==> ok
      ensures old(intact) ==> intact
      ensures Preserved(start, files, moves)
    {
      var j := k;
      while j > 0
        invariant 0 <= j <= k
        invariant Beside(files, start, moves, j, extra)
        invariant old(intact) ==> intact
        invariant Preserved(start, files, moves)
      {
        ok := UndoOne(j, k, extra);
        if !ok {
          return;
        }
        j := j - 1;
      }
      ok := true;
    }

    /** At every intermediate step every file keeps its content under one of its two names and nothing is
        overwritten; success moves exactly the listed files; a completed rollback restores the start but
        for at most one extra link of the failing file. */
    method Migrate() returns (outcome: Outcome, ghost failed: nat, ghost extra: Files)
      requires Separate(start, moves) && files == start && intact
      modifies this
      ensures intact && Preserved(start, files, moves)
      ensures outcome.Moved? ==> Free(start, moves, |moves|) && files == ShiftTo(start, moves, |moves|)
      ensures outcome.RolledBack? ==>
                failed < |moves| && Leftover(extra, start, moves[failed]) && files == start + extra
      ensures extra != map[] ==> DoubleFault()
      ensures Faultless() ==>
                if Free(start, moves, |moves|) then outcome.Moved? else outcome.RolledBack? && files == start
    {
      failed, extra := 0, map[];
      CoveringPreserves(start, moves, 0, files);
      for k := 0 to |moves|
        invariant Free(start, moves, k)
        invariant files == ShiftTo(start, moves, k) && intact && Preserved(start, files, moves)
        invariant extra == map[]
      {
        var ok;
        ok, extra := MoveOne(k);
        if !ok {
          failed := k;
          var restored := Rollback(k, extra);
          if restored {
            BesideStart(files, start, moves, extra);
          }
          outcome := if restored then RolledBack else Stranded;
          return;
        }
      }
      outcome := Moved;
    }
  }
}
