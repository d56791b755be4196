/** Freezing the sessions of a deletion request, and judging the receipt of one. */
module FrozenSelection {
  import opened Prelude
  import opened Ordering
  import opened CanonicalJson
  import Identifiers
  import ImportPaths

  const LIMIT := 256

  /** A listed session; `rest` stands for the fields that deletion does not look at. */
  datatype Session = Session(id: string, tool: string, status: string, rest: nat)

  datatype Refusal =
    | BadReference | NoMatch | AmbiguousReference
    | NothingSelected | NotDeletable | TooLarge
    | EmptyCollection | InvalidCollection | ForeignSession

  datatype Result<+T> = Ok(value: T) | Err(error: Refusal)

  function SessionId(s: Session): string {
    s.id
  }

  function Itself(s: string): string {
    s
  }

  function DeletableStatuses(): seq<string> {
    ["failed", "interrupted", "stopped"]
  }

  predicate Deletable(s: Session, tool: string) {
    s.tool == tool && s.status in DeletableStatuses()
  }

  predicate AllDeletable(s: seq<Session>, tool: string) {
    forall i :: 0 <= i < |s| ==> Deletable(s[i], tool)
  }

  function Ids(s: seq<Session>): (r: seq<string>)
    ensures |r| == |s| && forall i :: 0 <= i < |s| ==> r[i] == s[i].id
  {
    seq(|s|, i requires 0 <= i < |s| => s[i].id)
  }

  function WithId(s: seq<Session>, id: string): seq<Session> {
    if s == [] then [] else (if s[0].id == id then [s[0]] else []) + WithId(s[1..], id)
  }

  /** Drops every element whose key equals that of the element before it. */
  function Dedup<T>(s: seq<T>, key: T -> string): seq<T> {
    if |s| <= 1 then s
    else
      var front := Dedup(s[..|s| - 1], key);
      if key(s[|s| - 1]) == key(s[|s| - 2]) then front else front + [s[|s| - 1]]
  }

  function Select(listing: seq<Session>, reference: Option<string>): Result<seq<Session>> {
    if reference.None? then Ok(listing)
    else
      match Identifiers.MatchId(reference.value, Ids(listing))
      case Malformed => Err(BadReference)
      case NotFound => Err(NoMatch)
      case Ambiguous => Err(AmbiguousReference)
      case Unique(id) => Ok(WithId(listing, id))
  }

  function Freeze(listing: seq<Session>, tool: string, reference: Option<string>): Result<seq<Session>> {
    var selected := Select(listing, reference);
    if selected.Err? then selected
    else if selected.value == [] then Err(NothingSelected)
    else if !AllDeletable(selected.value, tool) then Err(NotDeletable)
    else
      var frozen := Dedup(SortBy(selected.value, SessionId), SessionId);
      if |frozen| > LIMIT then Err(TooLarge) else Ok(frozen)
  }

  /** The part of the deletion request that the two digests are computed from. */
  datatype Request = Request(tool: string, ids: seq<string>)

  function Submit(sessions: seq<Session>, tool: string): Result<Request> {
    if sessions == [] then Err(EmptyCollection)
    else
      var ids := Dedup(SortBy(Ids(sessions), Itself), Itself);
      if |ids| != |sessions| || |ids| > LIMIT then Err(InvalidCollection)
      else if !AllDeletable(sessions, tool) then Err(ForeignSession)
      else Ok(Request(tool, ids))
  }

  function Strings(s: seq<string>): Json {
    Array(seq(|s|, i requires 0 <= i < |s| => Str(s[i])))
  }

  function SelectionJson(tool: string): Json {
    Object([Member("tool_type", Str(tool)), Member("statuses", Strings(DeletableStatuses())),
            Member("project_key", Null)])
  }

  /** The value behind `selection_digest`. */
  function SelectionInput(r: Request): Json {
    Object([Member("schema_version", Number("1")), Member("tool_type", Str(r.tool)),
            Member("session_ids", Strings(r.ids)), Member("selection", SelectionJson(r.tool))])
  }

  /** The value behind `intent_fingerprint`. */
  function IntentInput(r: Request): Json {
    Object(SelectionInput(r).members + [Member("reason", Str("user_requested"))])
  }

  // ---- Sorting followed by deduplication

  ghost predicate Occurs<T>(k: string, s: seq<T>, key: T -> string) {
    exists i :: 0 <= i < |s| && key(s[i]) == k
  }

  lemma OccursConcat<T>(k: string, a: seq<T>, b: seq<T>, key: T -> string)
    ensures Occurs(k, a + b, key) <==> Occurs(k, a, key) || Occurs(k, b, key)
  {
    if Occurs(k, a, key) {
      var i :| 0 <= i < |a| && key(a[i]) == k;
      assert (a + b)[i] == a[i];
    }
    if Occurs(k, b, key) {
      var i :| 0 <= i < |b| && key(b[i]) == k;
      assert (a + b)[|a| + i] == b[i];
    }
  }

  /** Deduplication drops no key, invents nothing and ends with the last key. */
  lemma {:induction false} DedupKeys<T>(s: seq<T>, key: T -> string, k: string)
    ensures Occurs(k, Dedup(s, key), key) <==> Occurs(k, s, key)
    ensures s != [] ==> Dedup(s, key) != [] && key(Dedup(s, key)[|Dedup(s, key)| - 1]) == key(s[|s| - 1])
  {
    if |s| > 1 {
      var init, last := s[..|s| - 1], s[|s| - 1];
      DedupKeys(init, key, k);
      assert s == init + [last];
      OccursConcat(k, init, [last], key);
      OccursConcat(k, Dedup(init, key), [last], key);
      assert Occurs(k, [last], key) <==> key([last][0]) == k;
      assert init[|init| - 1] == s[|s| - 2];
    }
  }

  lemma {:induction false} DedupWithin<T>(s: seq<T>, key: T -> string)
    ensures forall x :: x in Dedup(s, key) ==> x in s
  {
    if |s| > 1 {
      DedupWithin(s[..|s| - 1], key);
    }
  }

  lemma AppendStrict<T>(s: seq<T>, x: T, key: T -> string)
    requires StrictlySortedBy(s, key) && (s != [] ==> Before(key(s[|s| - 1]), key(x)))
    ensures StrictlySortedBy(s + [x], key)
  {
    forall i | 0 <= i < |s| ensures Before(key(s[i]), key(x)) {
      if i < |s| - 1 {
        Transitive(key(s[i]), key(s[|s| - 1]), key(x));
      }
    }
  }

  /** On sorted input, deduplication leaves strictly increasing keys. */
  lemma {:induction false} DedupStrict<T>(s: seq<T>, key: T -> string)
    requires SortedBy(s, key)
    ensures StrictlySortedBy(Dedup(s, key), key)
  {
    if |s| > 1 {
      var init, last := s[..|s| - 1], s[|s| - 1];
      assert init[|init| - 1] == s[|s| - 2];
      assert SortedBy(init, key);
      DedupStrict(init, key);
      DedupKeys(init, key, []);
      Trichotomy(key(s[|s| - 2]), key(last));
      if key(last) != key(s[|s| - 2]) {
        AppendStrict(Dedup(init, key), last, key);
      }
    }
  }

  /** Strictly sorted texts are determined by which texts occur. */
  lemma SortedTextsUnique(s: seq<string>, t: seq<string>)
    requires StrictlySortedBy(s, Itself) && StrictlySortedBy(t, Itself)
    requires forall x :: x in s <==> x in t
    ensures s == t
  {
    StrictDistinct(s);
    StrictDistinct(t);
    forall x ensures multiset(s)[x] == multiset(t)[x] {
      DistinctCounts(s, x);
      DistinctCounts(t, x);
    }
    StrictlySortedUnique(s, t, Itself);
  }

  lemma StrictDistinct(s: seq<string>)
    requires StrictlySortedBy(s, Itself)
    ensures Distinct(s)
  {
    forall i, j | 0 <= i < j < |s| ensures s[i] != s[j] {
      Irreflexive(Itself(s[i]));
    }
  }

  lemma OccursPermutes<T>(s: seq<T>, t: seq<T>, key: T -> string, k: string)
    requires multiset(s) == multiset(t) && Occurs(k, s, key)
    ensures Occurs(k, t, key)
  {
    var i :| 0 <= i < |s| && key(s[i]) == k;
    assert s[i] in multiset(t);
    var j :| 0 <= j < |t| && t[j] == s[i];
  }

  /** Sorting and deduplicating keeps the occurring keys, each once, in increasing order. */
  lemma SortDedup<T>(s: seq<T>, key: T -> string)
    ensures var d := Dedup(SortBy(s, key), key);
            StrictlySortedBy(d, key) && (s != [] ==> d != [])
    ensures forall k :: Occurs(k, Dedup(SortBy(s, key), key), key) <==> Occurs(k, s, key)
    ensures forall x :: x in Dedup(SortBy(s, key), key) ==> x in s
  {
    var sorted := SortBy(s, key);
    SortSorts(s, key);
    DedupStrict(sorted, key);
    DedupWithin(sorted, key);
    DedupKeys(sorted, key, []);
    forall k ensures Occurs(k, Dedup(sorted, key), key) <==> Occurs(k, s, key) {
      DedupKeys(sorted, key, k);
      if Occurs(k, s, key) {
        OccursPermutes(s, sorted, key, k);
      }
      if Occurs(k, sorted, key) {
        OccursPermutes(sorted, s, key, k);
      }
    }
    forall x | x in Dedup(sorted, key) ensures x in s {
      assert x in multiset(sorted);
    }
  }

  lemma IdsOccur(s: seq<Session>, x: string)
    ensures Occurs(x, s, SessionId) <==> x in Ids(s)
  {
    if x in Ids(s) {
      var i :| 0 <= i < |s| && Ids(s)[i] == x;
      assert SessionId(s[i]) == x;
    }
    if Occurs(x, s, SessionId) {
      var i :| 0 <= i < |s| && SessionId(s[i]) == x;
      assert Ids(s)[i] == x;
    }
  }

  lemma TextsOccur(s: seq<string>, x: string)
    ensures Occurs(x, s, Itself) <==> x in s
  {
    if x in s {
      var i :| 0 <= i < |s| && s[i] == x;
      assert Itself(s[i]) == x;
    }
  }

  /** The frozen ids are the ids that occur, each once, in increasing order. */
  lemma FrozenIds(selected: seq<Session>)
    ensures var frozen := Dedup(SortBy(selected, SessionId), SessionId);
            StrictlySortedBy(Ids(frozen), Itself)
            && (forall x :: x in Ids(frozen) <==> x in Ids(selected))
            && (forall i :: 0 <= i < |frozen| ==> frozen[i] in selected)
            && (selected != [] ==> frozen != [])
  {
    SortDedup(selected, SessionId);
    var frozen := Dedup(SortBy(selected, SessionId), SessionId);
    forall x ensures x in Ids(frozen) <==> x in Ids(selected) {
      IdsOccur(frozen, x);
      IdsOccur(selected, x);
    }
    StrictIds(frozen);
  }

  lemma StrictIds(s: seq<Session>)
    requires StrictlySortedBy(s, SessionId)
    ensures StrictlySortedBy(Ids(s), Itself)
  {
    forall i, j | 0 <= i < j < |s| ensures Before(Itself(Ids(s)[i]), Itself(Ids(s)[j])) {
      assert Before(SessionId(s[i]), SessionId(s[j]));
    }
  }

  /** Sorting and deduplicating texts loses nothing exactly when none was repeated. */
  lemma SortedIds(ids: seq<string>)
    ensures var d := Dedup(SortBy(ids, Itself), Itself);
            StrictlySortedBy(d, Itself) && (forall x :: x in d <==> x in ids)
            && (|d| == |ids| <==> Distinct(ids))
  {
    SortDedup(ids, Itself);
    var d := Dedup(SortBy(ids, Itself), Itself);
    forall x ensures x in d <==> x in ids {
      TextsOccur(d, x);
      TextsOccur(ids, x);
    }
    StrictDistinct(d);
    SameMembers(d, ids);
  }

  lemma SameMembers(d: seq<string>, s: seq<string>)
    requires Distinct(d) && forall x :: x in d <==> x in s
    ensures |d| == |s| <==> Distinct(s)
  {
    DistinctCardinality(d);
    CardinalityBound(s);
    assert (set x | x in d) == (set x | x in s);
    if Distinct(s) {
      DistinctCardinality(s);
    }
  }

  // ---- Independence of the listing's order

  lemma {:induction false} WithIdCount(s: seq<Session>, id: string, x: Session)
    ensures multiset(WithId(s, id))[x] == if x.id == id then multiset(s)[x] else 0
  {
    if s != [] {
      WithIdCount(s[1..], id, x);
      assert s == [s[0]] + s[1..];
    }
  }

  lemma IdsConcat(a: seq<Session>, b: seq<Session>)
    ensures Ids(a + b) == Ids(a) + Ids(b)
  {
  }

  lemma TakeOut(b: seq<Session>, x: Session) returns (before: seq<Session>, after: seq<Session>)
    requires x in b
    ensures b == before + ([x] + after)
  {
    var k :| 0 <= k < |b| && b[k] == x;
    before, after := b[..k], b[k + 1..];
  }

  /** Putting one element anywhere into either side keeps two sequences permutations, or not, of each other. */
  lemma AddOne<T>(x: T, rest: seq<T>, before: seq<T>, after: seq<T>)
    ensures multiset([x] + rest) == multiset(before + ([x] + after)) <==> multiset(rest) == multiset(before + after)
  {
    assert multiset([x] + rest) == multiset{x} + multiset(rest);
    assert multiset(before + ([x] + after)) == multiset{x} + multiset(before + after);
    assert multiset(rest) == multiset([x] + rest) - multiset{x};
    assert multiset(before + after) == multiset(before + ([x] + after)) - multiset{x};
  }

  lemma {:induction false} IdsPermute(a: seq<Session>, b: seq<Session>)
    requires multiset(a) == multiset(b)
    ensures multiset(Ids(a)) == multiset(Ids(b))
    decreases |a|
  {
    if a == [] {
      assert |b| == |multiset(b)| == |multiset(a)| == 0;
    } else {
      var x, rest := a[0], a[1..];
      assert a == [x] + rest;
      assert x in multiset(b);
      var before, after := TakeOut(b, x);
      AddOne(x, rest, before, after);
      IdsPermute(rest, before + after);
      IdsConcat([x], rest);
      IdsConcat(before, after);
      IdsConcat([x], after);
      IdsConcat(before, [x] + after);
      assert Ids([x]) == [x.id];
      AddOne(x.id, Ids(rest), Ids(before), Ids(after));
    }
  }

  /** Selection from two orders of a listing: the same refusal, or the same sessions in some order. */
  lemma SelectPermutes(a: seq<Session>, b: seq<Session>, reference: Option<string>)
    requires multiset(a) == multiset(b)
    ensures var x, y := Select(a, reference), Select(b, reference);
            x.Ok? == y.Ok? && (x.Err? ==> x == y) && (x.Ok? ==> multiset(x.value) == multiset(y.value))
  {
    if reference.Some? {
      IdsPermute(a, b);
      Identifiers.MatchIgnoresOrder(reference.value, Ids(a), Ids(b));
      var found := Identifiers.MatchId(reference.value, Ids(a));
      if found.Unique? {
        forall s ensures multiset(WithId(a, found.id))[s] == multiset(WithId(b, found.id))[s] {
          WithIdCount(a, found.id, s);
          WithIdCount(b, found.id, s);
        }
      }
    }
  }

  lemma DeletablePermutes(a: seq<Session>, b: seq<Session>, tool: string)
    requires multiset(a) == multiset(b)
    ensures AllDeletable(a, tool) ==> AllDeletable(b, tool)
  {
    if AllDeletable(a, tool) {
      forall i | 0 <= i < |b| ensures Deletable(b[i], tool) {
        assert b[i] in multiset(a);
      }
    }
  }

  /** Every order in which the server may list the sessions freezes the same ids, or is refused alike. */
  lemma FreezeIgnoresOrder(a: seq<Session>, b: seq<Session>, tool: string, reference: Option<string>)
    requires multiset(a) == multiset(b)
    ensures var x, y := Freeze(a, tool, reference), Freeze(b, tool, reference);
            x.Ok? == y.Ok? && (x.Err? ==> x == y) && (x.Ok? ==> Ids(x.value) == Ids(y.value))
  {
    SelectPermutes(a, b, reference);
    var x, y := Select(a, reference), Select(b, reference);
    if x.Ok? {
      assert |x.value| == |multiset(x.value)| == |multiset(y.value)| == |y.value|;
      DeletablePermutes(x.value, y.value, tool);
      DeletablePermutes(y.value, x.value, tool);
      FrozenIds(x.value);
      FrozenIds(y.value);
      IdsPermute(x.value, y.value);
      var s, t := Ids(Dedup(SortBy(x.value, SessionId), SessionId)), Ids(Dedup(SortBy(y.value, SessionId), SessionId));
      forall id ensures id in s <==> id in t {
        assert id in Ids(x.value) <==> id in multiset(Ids(x.value));
        assert id in Ids(y.value) <==> id in multiset(Ids(y.value));
      }
      SortedTextsUnique(s, t);
    }
  }

  /** What is frozen without a reference: every listed id once, in increasing order, provided that all listed
      sessions are deletable and at most 256 ids occur. */
  lemma FreezeAllIff(listing: seq<Session>, tool: string)
    ensures Freeze(listing, tool, None).Ok?
            <==> listing != [] && AllDeletable(listing, tool) && |set x | x in Ids(listing)| <= 256
    ensures Freeze(listing, tool, None).Ok? ==>
              var ids := Ids(Freeze(listing, tool, None).value);
              StrictlySortedBy(ids, Itself) && forall x :: x in ids <==> x in Ids(listing)
  {
    FrozenIds(listing);
    var ids := Ids(Dedup(SortBy(listing, SessionId), SessionId));
    StrictDistinct(ids);
    DistinctCardinality(ids);
    assert (set x | x in ids) == (set x | x in Ids(listing));
  }

  lemma {:induction false} MatchedOnce(prefix: string, listing: seq<Session>, id: string)
    requires Identifiers.Matches(prefix, Ids(listing)) == [id]
    ensures |WithId(listing, id)| == 1 && WithId(listing, id)[0] in listing && WithId(listing, id)[0].id == id
  {
    var first, rest := listing[0], listing[1..];
    var found := Identifiers.Matches(prefix, Ids(listing));
    assert Ids(listing)[1..] == Ids(rest);
    if Identifiers.Fits(first.id, prefix) {
      assert found[0] == first.id;
      assert Identifiers.Matches(prefix, Ids(rest)) == found[1..] == [];
      MatchedNone(prefix, rest, id);
    } else {
      MatchedOnce(prefix, rest, id);
      MatchedFits(prefix, Ids(listing), id);
    }
  }

  lemma {:induction false} MatchedFits(prefix: string, ids: seq<string>, id: string)
    requires id in Identifiers.Matches(prefix, ids)
    ensures Identifiers.Fits(id, prefix)
  {
    if !(Identifiers.Fits(ids[0], prefix) && ids[0] == id) {
      MatchedFits(prefix, ids[1..], id);
    }
  }

  lemma {:induction false} MatchedNone(prefix: string, listing: seq<Session>, id: string)
    requires Identifiers.Matches(prefix, Ids(listing)) == [] && Identifiers.Fits(id, prefix)
    ensures WithId(listing, id) == []
  {
    if listing != [] {
      assert Ids(listing)[1..] == Ids(listing[1..]);
      MatchedNone(prefix, listing[1..], id);
    }
  }

  /** A reference freezes exactly the one listed session it resolves to, if that session may be deleted. */
  lemma FreezeOne(listing: seq<Session>, tool: string, reference: string, id: string)
    requires Identifiers.MatchId(reference, Ids(listing)) == Identifiers.Unique(id)
    ensures exists k :: 0 <= k < |listing| && listing[k].id == id
                        && Freeze(listing, tool, Some(reference))
                           == if Deletable(listing[k], tool) then Ok([listing[k]]) else Err(NotDeletable)
  {
    var prefix := Identifiers.Normalize(reference).value;
    var found := Identifiers.Matches(prefix, Ids(listing));
    assert found == [id];
    MatchedOnce(prefix, listing, id);
    var selected := WithId(listing, id);
    var k :| 0 <= k < |listing| && listing[k] == selected[0];
    assert selected == [listing[k]];
    assert SortBy(selected, SessionId) == selected by {
      assert selected[1..] == [];
    }
    assert AllDeletable(selected, tool) <==> Deletable(selected[0], tool);
  }

  /** Which sessions may be deleted. */
  lemma DeletableIff(s: Session, tool: string)
    ensures Deletable(s, tool)
            <==> s.tool == tool && (s.status == "failed" || s.status == "interrupted" || s.status == "stopped")
  {
    assert forall x :: x in DeletableStatuses() <==> x == "failed" || x == "interrupted" || x == "stopped";
  }

  /** Only failed, interrupted or stopped sessions of the tool are ever frozen. */
  lemma FrozenAreDeletable(listing: seq<Session>, tool: string, reference: Option<string>, i: nat)
    requires Freeze(listing, tool, reference).Ok? && i < |Freeze(listing, tool, reference).value|
    ensures var s := Freeze(listing, tool, reference).value[i];
            s.tool == tool && (s.status == "failed" || s.status == "interrupted" || s.status == "stopped")
  {
    var selected := Select(listing, reference).value;
    FrozenIds(selected);
    assert Freeze(listing, tool, reference).value[i] in selected;
  }

  /** Why freezing is refused: the reference, then emptiness, then a session that may not be deleted, then the size. */
  lemma FreezeRefusals(listing: seq<Session>, tool: string, reference: string)
    ensures var found := Identifiers.MatchId(reference, Ids(listing));
            && (found.Malformed? ==> Freeze(listing, tool, Some(reference)) == Err(BadReference))
            && (found.NotFound? ==> Freeze(listing, tool, Some(reference)) == Err(NoMatch))
            && (found.Ambiguous? ==> Freeze(listing, tool, Some(reference)) == Err(AmbiguousReference))
    ensures listing == [] ==> Freeze(listing, tool, None) == Err(NothingSelected)
    ensures listing != [] && !AllDeletable(listing, tool) ==> Freeze(listing, tool, None) == Err(NotDeletable)
    ensures AllDeletable(listing, tool) && |set x | x in Ids(listing)| > 256 ==>
              Freeze(listing, tool, None) == Err(TooLarge)
  {
    FreezeAllIff(listing, tool);
    if |set x | x in Ids(listing)| > 256 {
      CardinalityBound(Ids(listing));
    }
  }

  // ---- Submission

  /** What `Submit` accepts, and what it then asks for. */
  lemma SubmitIff(sessions: seq<Session>, tool: string)
    ensures Submit(sessions, tool).Ok?
            <==> 0 < |sessions| <= 256 && Distinct(Ids(sessions)) && AllDeletable(sessions, tool)
    ensures Submit(sessions, tool).Ok? ==>
              var ids := Submit(sessions, tool).value.ids;
              StrictlySortedBy(ids, Itself) && Distinct(ids) && multiset(ids) == multiset(Ids(sessions))
  {
    SortedIds(Ids(sessions));
    var ids := Dedup(SortBy(Ids(sessions), Itself), Itself);
    StrictDistinct(ids);
    if |ids| == |sessions| {
      ContainedPermutes(ids, Ids(sessions));
    }
  }

  /** What was frozen is always accepted, under the ids it was shown with. */
  lemma FrozenIsAccepted(listing: seq<Session>, tool: string, reference: Option<string>)
    requires Freeze(listing, tool, reference).Ok?
    ensures var frozen := Freeze(listing, tool, reference).value;
            Submit(frozen, tool) == Ok(Request(tool, Ids(frozen)))
            && forall i :: 0 <= i < |frozen| ==> frozen[i] in listing
  {
    var selected := Select(listing, reference).value;
    var frozen := Freeze(listing, tool, reference).value;
    FrozenIds(selected);
    StrictDistinct(Ids(frozen));
    forall i | 0 <= i < |frozen| ensures Deletable(frozen[i], tool) && frozen[i] in listing {
      assert frozen[i] in selected;
      if reference.Some? {
        var id := Identifiers.MatchId(reference.value, Ids(listing)).id;
        assert frozen[i] in multiset(WithId(listing, id));
        WithIdCount(listing, id, frozen[i]);
        assert frozen[i] in multiset(listing);
      }
    }
    SubmitIff(frozen, tool);
    SortedIds(Ids(frozen));
    SortedTextsUnique(Submit(frozen, tool).value.ids, Ids(frozen));
  }

  /** The request and both digest inputs are the same for every order of the listing. */
  lemma DigestsIgnoreOrder(a: seq<Session>, b: seq<Session>, tool: string, reference: Option<string>)
    requires multiset(a) == multiset(b) && Freeze(a, tool, reference).Ok?
    ensures Freeze(b, tool, reference).Ok?
    ensures var x, y := Submit(Freeze(a, tool, reference).value, tool), Submit(Freeze(b, tool, reference).value, tool);
            x.Ok? && y.Ok?
            && Canonical(SelectionInput(x.value)) == Canonical(SelectionInput(y.value))
            && Canonical(IntentInput(x.value)) == Canonical(IntentInput(y.value))
  {
    FreezeIgnoresOrder(a, b, tool, reference);
    FrozenIsAccepted(a, tool, reference);
    FrozenIsAccepted(b, tool, reference);
  }

  lemma StringsInjective(s: seq<string>, t: seq<string>)
    requires Same(Strings(s), Strings(t))
    ensures s == t
  {
    forall i | 0 <= i < |s| ensures |s| == |t| && s[i] == t[i] {
      assert Same(Strings(s).items[i], Strings(t).items[i]);
    }
  }

  /** Different requests never share the value behind the selection digest. */
  lemma SelectionInputBinds(x: Request, y: Request)
    requires Canonical(SelectionInput(x)) == Canonical(SelectionInput(y))
    ensures x == y
  {
    CanonicalEqualSame(SelectionInput(x), SelectionInput(y));
    var s, t := SelectionInput(x).members, SelectionInput(y).members;
    assert s[1].key == "tool_type" && s[2].key == "session_ids";
    var j :| 0 <= j < |t| && t[j].key == s[1].key && Same(s[1].value, t[j].value);
    var k :| 0 <= k < |t| && t[k].key == s[2].key && Same(s[2].value, t[k].value);
    KeysApart(y, j, k);
    StringsInjective(x.ids, y.ids);
  }

  lemma KeysApart(r: Request, j: nat, k: nat)
    requires j < 4 && SelectionInput(r).members[j].key == "tool_type"
    requires k < 4 && SelectionInput(r).members[k].key == "session_ids"
    ensures j == 1 && k == 2
  {
    var a, b, c, d := "schema_version", "tool_type", "session_ids", "selection";
    assert a[0] != b[0] && b[0] != c[0] && b[0] != d[0] && |a| != |c| && |c| != |d|;
  }

  /** Nor the value behind the intent fingerprint, which is never that of a selection digest. */
  lemma IntentInputBinds(x: Request, y: Request)
    ensures Canonical(IntentInput(x)) == Canonical(IntentInput(y)) ==> x == y
    ensures Canonical(IntentInput(x)) != Canonical(SelectionInput(y))
  {
    var s, t := IntentInput(x).members, IntentInput(y).members;
    assert |s| == |t| == 5;
    if Canonical(IntentInput(x)) == Canonical(SelectionInput(y)) {
      CanonicalEqualSame(IntentInput(x), SelectionInput(y));
    }
    if Canonical(IntentInput(x)) == Canonical(IntentInput(y)) {
      CanonicalEqualSame(IntentInput(x), IntentInput(y));
      assert s[1].key == "tool_type" && s[2].key == "session_ids";
      var j :| 0 <= j < |t| && t[j].key == s[1].key && Same(s[1].value, t[j].value);
      var k :| 0 <= k < |t| && t[k].key == s[2].key && Same(s[2].value, t[k].value);
      ReasonApart();
      assert t[4].key == "reason";
      KeysApart(y, j, k);
      StringsInjective(x.ids, y.ids);
    }
  }

  lemma ReasonApart()
    ensures "reason" != "tool_type" && "reason" != "session_ids"
  {
    assert |"reason"| == 6 && |"tool_type"| == 9 && |"session_ids"| == 11;
  }

  // ---- The receipt

  datatype Context = Context(
    session: string, account: string, workspace: string, node: string,
    project: string, backend: string, resource: Option<string>)

  /** The fields of the journal record or receipt that the collection is bound by; the remaining equal fields
      (request, tool, selection, digests, reason) are `frame`. */
  datatype Bound = Bound(frame: nat, ids: seq<string>)

  datatype Receipt = Receipt(
    schema: nat, bound: Bound, phase: string, deletedFlag: bool,
    deleted: seq<string>, statuses: map<string, string>, contexts: seq<Context>)

  predicate Printable(s: string) {
    forall i :: 0 <= i < |s| ==> !ImportPaths.IsControl(s[i])
  }

  /** The checks on one context that do not involve the collection. */
  predicate FieldsHold(c: Context, uuid: string -> bool) {
    uuid(c.session) && uuid(c.account) && uuid(c.workspace) && uuid(c.node)
    && ImportPaths.Bytes(c.project) <= 512 && Printable(c.project)
    && c.backend != [] && ImportPaths.Bytes(c.backend) <= 64 && Printable(c.backend)
    && (c.resource.Some? ==>
          c.resource.value != [] && ImportPaths.Bytes(c.resource.value) <= 256 && Printable(c.resource.value))
  }

  function ContextIds(contexts: seq<Context>): (r: seq<string>)
    ensures |r| == |contexts| && forall i :: 0 <= i < |contexts| ==> r[i] == contexts[i].session
  {
    seq(|contexts|, i requires 0 <= i < |contexts| => contexts[i].session)
  }

  predicate ValidContexts(contexts: seq<Context>, ids: seq<string>, uuid: string -> bool) {
    |contexts| == |ids|
    && (forall i :: 0 <= i < |contexts| ==> FieldsHold(contexts[i], uuid) && contexts[i].session in ids)
    && |set x | x in ContextIds(contexts)| == |ids|
  }

  predicate BindingHolds(record: Bound, receipt: Receipt, uuid: string -> bool) {
    receipt.schema == 1 && receipt.bound == record
    && (forall i :: 0 <= i < |receipt.deleted| ==> receipt.deleted[i] in record.ids)
    && (forall id <- receipt.statuses :: id in record.ids)
    && ValidContexts(receipt.contexts, record.ids, uuid)
  }

  predicate ListTerminal(receipt: Receipt) {
    |receipt.bound.ids| == |receipt.deleted|
    && forall i :: 0 <= i < |receipt.bound.ids| ==> receipt.bound.ids[i] in receipt.deleted
  }

  predicate IsTerminal(receipt: Receipt) {
    receipt.deletedFlag || receipt.phase == "deleted" || ListTerminal(receipt)
  }

  /** For distinct ids, the list test finds exactly the permutations. */
  lemma CoveringPermutes(ids: seq<string>, others: seq<string>)
    requires Distinct(ids)
    ensures (|ids| == |others| && forall i :: 0 <= i < |ids| ==> ids[i] in others)
            <==> multiset(ids) == multiset(others)
  {
    if |ids| == |others| && forall i :: 0 <= i < |ids| ==> ids[i] in others {
      DistinctCardinality(ids);
      CardinalityBound(others);
      var a, b := set x | x in ids, set x | x in others;
      assert a <= b;
      CardinalityMonotone(a, b);
      ContainedPermutes(ids, others);
    }
    if multiset(ids) == multiset(others) {
      assert |ids| == |multiset(ids)| == |multiset(others)| == |others|;
      forall i | 0 <= i < |ids| ensures ids[i] in others {
        assert ids[i] in multiset(others);
      }
    }
  }

  lemma CardinalityMonotone<T>(a: set<T>, b: set<T>)
    requires a <= b
    ensures |a| <= |b|
  {
    assert b == a + (b - a);
  }

  /** A bound receipt of a frozen collection is terminal by its list exactly when the deleted ids are a permutation
      of the frozen ones; the deleted ids can then repeat nothing and leave nothing out. */
  lemma TerminalIff(record: Bound, receipt: Receipt, uuid: string -> bool)
    requires Distinct(record.ids) && BindingHolds(record, receipt, uuid)
    ensures ListTerminal(receipt) <==> multiset(receipt.deleted) == multiset(record.ids)
    ensures IsTerminal(receipt)
            <==> receipt.deletedFlag || receipt.phase == "deleted" || multiset(receipt.deleted) == multiset(record.ids)
  {
    CoveringPermutes(record.ids, receipt.deleted);
  }

  /** The context check accepts exactly the well-formed contexts that are in bijection with the frozen ids. */
  lemma ContextsIff(contexts: seq<Context>, ids: seq<string>, uuid: string -> bool)
    requires Distinct(ids)
    ensures ValidContexts(contexts, ids, uuid)
            <==> (forall i :: 0 <= i < |contexts| ==> FieldsHold(contexts[i], uuid))
                 && multiset(ContextIds(contexts)) == multiset(ids)
  {
    var found := ContextIds(contexts);
    if ValidContexts(contexts, ids, uuid) {
      CardinalityBound(found);
      ContainedPermutes(found, ids);
    }
    if multiset(found) == multiset(ids) {
      assert |found| == |multiset(found)| == |multiset(ids)| == |ids|;
      assert forall x :: x in found <==> x in multiset(found);
      assert forall x :: x in ids <==> x in multiset(ids);
      assert (set x | x in found) == (set x | x in ids);
      DistinctCardinality(ids);
      forall i | 0 <= i < |contexts| ensures contexts[i].session in ids {
        assert found[i] in multiset(found);
      }
    }
  }

  /** What a well-formed context holds, in numbers. */
  lemma FieldsMean(c: Context, uuid: string -> bool)
    requires FieldsHold(c, uuid)
    ensures uuid(c.session) && uuid(c.account) && uuid(c.workspace) && uuid(c.node)
    ensures ImportPaths.Bytes(c.project) <= 512 && 0 < |c.backend| && ImportPaths.Bytes(c.backend) <= 64
    ensures c.resource.Some? ==> 0 < |c.resource.value| && ImportPaths.Bytes(c.resource.value) <= 256
    ensures forall i :: 0 <= i < |c.project| ==> c.project[i] >= ' ' && c.project[i] != '\U{7f}'
    ensures forall i :: 0 <= i < |c.backend| ==> c.backend[i] >= ' ' && c.backend[i] != '\U{7f}'
    ensures c.resource.Some? ==>
              forall i :: 0 <= i < |c.resource.value| ==> c.resource.value[i] >= ' ' && c.resource.value[i] != '\U{7f}'
  {
  }

  /** What the binding check accepts: the schema and the recorded fields, deleted ids and statuses only of frozen ids,
      and one well-formed context for each frozen id. */
  lemma BindingIff(record: Bound, receipt: Receipt, uuid: string -> bool)
    requires Distinct(record.ids)
    ensures BindingHolds(record, receipt, uuid)
            <==> && receipt.schema == 1 && receipt.bound == record
                 && (set x | x in receipt.deleted) <= (set x | x in record.ids)
                 && receipt.statuses.Keys <= (set x | x in record.ids)
                 && (forall i :: 0 <= i < |receipt.contexts| ==> FieldsHold(receipt.contexts[i], uuid))
                 && multiset(ContextIds(receipt.contexts)) == multiset(record.ids)
  {
    ContextsIff(receipt.contexts, record.ids, uuid);
    var deleted, ids := set x | x in receipt.deleted, set x | x in record.ids;
    if deleted <= ids {
      forall i | 0 <= i < |receipt.deleted| ensures receipt.deleted[i] in record.ids {
        assert receipt.deleted[i] in deleted;
      }
    }
    if receipt.statuses.Keys <= ids {
      forall id | id in receipt.statuses ensures id in record.ids {
        assert id in receipt.statuses.Keys;
      }
    }
  }

  /** From the listing to the receipt: a receipt bound to a frozen request reports every frozen session deleted
      exactly when its deleted ids are a permutation of the ids frozen from the listing, and carries one context for
      each. */
  lemma FrozenReceipt(listing: seq<Session>, tool: string, reference: Option<string>, request: Request, frame: nat,
                      receipt: Receipt, uuid: string -> bool)
    requires Freeze(listing, tool, reference).Ok? && Submit(Freeze(listing, tool, reference).value, tool) == Ok(request)
    requires BindingHolds(Bound(frame, request.ids), receipt, uuid)
    ensures var frozen := Ids(Freeze(listing, tool, reference).value);
            (ListTerminal(receipt) <==> multiset(receipt.deleted) == multiset(frozen))
            && multiset(ContextIds(receipt.contexts)) == multiset(frozen)
  {
    FrozenIsAccepted(listing, tool, reference);
    var frozen := Freeze(listing, tool, reference).value;
    SubmitIff(frozen, tool);
    TerminalIff(Bound(frame, Ids(frozen)), receipt, uuid);
    ContextsIff(receipt.contexts, Ids(frozen), uuid);
  }
}
