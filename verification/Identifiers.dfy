/** Resolution of identifier prefixes against a listing. */
module Identifiers {
  import opened Prelude

  const MAX_DIGITS := 32
  const MIN_PREFIX := 4
  const SHORT_LENGTH := 12

  predicate IsHexDigit(c: char) {
    '0' <= c <= '9' || 'a' <= c <= 'f'
  }

  function Lower(c: char): char {
    if 'A' <= c <= 'Z' then (c as int + 32) as char else c
  }

  function WithoutDashes(s: string): string {
    if s == [] then [] else (if s[0] == '-' then [] else [s[0]]) + WithoutDashes(s[1..])
  }

  function LowerAll(s: string): (r: string)
    ensures |r| == |s| && forall i :: 0 <= i < |s| ==> r[i] == Lower(s[i])
  {
    if s == [] then [] else [Lower(s[0])] + LowerAll(s[1..])
  }

  /** The digits of a well-formed identifier or prefix. */
  function Normalize(value: string): Option<string> {
    var digits := LowerAll(WithoutDashes(value));
    if digits == [] || |digits| > MAX_DIGITS || exists i :: 0 <= i < |digits| && !IsHexDigit(digits[i]) then None
    else Some(digits)
  }

  /** Whether an identifier starts with the digits `prefix`; malformed identifiers never do. */
  predicate Fits(id: string, prefix: string) {
    Normalize(id).Some? && prefix <= Normalize(id).value
  }

  function Matches(prefix: string, ids: seq<string>): seq<string> {
    if ids == [] then [] else (if Fits(ids[0], prefix) then [ids[0]] else []) + Matches(prefix, ids[1..])
  }

  datatype IdMatch = Malformed | NotFound | Unique(id: string) | Ambiguous

  function MatchId(reference: string, ids: seq<string>): IdMatch {
    var prefix := Normalize(reference);
    if prefix.None? || |prefix.value| < MIN_PREFIX then Malformed
    else
      var found := Matches(prefix.value, ids);
      if found == [] then NotFound else if |found| == 1 then Unique(found[0]) else Ambiguous
  }

  function Take(s: string, n: nat): string {
    if |s| <= n then s else s[..n]
  }

  function ShortId(value: string): string {
    Take(WithoutDashes(value), SHORT_LENGTH)
  }

  lemma {:induction false} MatchesConcat(prefix: string, a: seq<string>, b: seq<string>)
    ensures Matches(prefix, a + b) == Matches(prefix, a) + Matches(prefix, b)
  {
    if a == [] {
      assert a + b == b;
    } else {
      assert (a + b)[1..] == a[1..] + b;
      MatchesConcat(prefix, a[1..], b);
      assert Matches(prefix, a + b)
             == (if Fits(a[0], prefix) then [a[0]] else []) + (Matches(prefix, a[1..]) + Matches(prefix, b));
    }
  }

  /** More identifiers, anywhere in the listing, can turn a unique match only into an ambiguous one. */
  lemma AddingNeverRedirects(reference: string, a: seq<string>, more: seq<string>, b: seq<string>)
    requires MatchId(reference, a + b).Unique?
    ensures var now := MatchId(reference, a + more + b);
            now == MatchId(reference, a + b) || now.Ambiguous?
  {
    var prefix := Normalize(reference).value;
    MatchesConcat(prefix, a, b);
    MatchesConcat(prefix, a, more);
    MatchesConcat(prefix, a + more, b);
    if Matches(prefix, more) == [] {
      assert Matches(prefix, a + more + b) == Matches(prefix, a + b);
    }
  }

  lemma {:induction false} NarrowingMatches(shorter: string, longer: string, ids: seq<string>, x: string)
    requires shorter <= longer && Matches(shorter, ids) == [x] && Fits(x, longer)
    ensures Matches(longer, ids) == [x]
  {
    var first := ids[0];
    if Fits(first, shorter) {
      assert Matches(shorter, ids)[0] == first;
      assert Matches(shorter, ids)[1..] == Matches(shorter, ids[1..]);
      NarrowingNone(shorter, longer, ids[1..]);
    } else {
      assert Matches(shorter, ids) == Matches(shorter, ids[1..]);
      assert !Fits(first, longer);
      NarrowingMatches(shorter, longer, ids[1..], x);
    }
  }

  lemma {:induction false} NarrowingNone(shorter: string, longer: string, ids: seq<string>)
    requires shorter <= longer && Matches(shorter, ids) == []
    ensures Matches(longer, ids) == []
  {
    if ids != [] {
      NarrowingNone(shorter, longer, ids[1..]);
    }
  }

  /** Lengthening a reference within the identifier it resolves to keeps it resolving to that identifier. */
  lemma LengtheningKeeps(reference: string, longer: string, ids: seq<string>)
    requires MatchId(reference, ids).Unique?
    requires Normalize(longer).Some? && Normalize(reference).value <= Normalize(longer).value
    requires Fits(MatchId(reference, ids).id, Normalize(longer).value)
    ensures MatchId(longer, ids) == MatchId(reference, ids)
  {
    var found := Matches(Normalize(reference).value, ids);
    assert found == [found[0]];
    NarrowingMatches(Normalize(reference).value, Normalize(longer).value, ids, found[0]);
  }

  lemma {:induction false} NoDashes(s: string)
    ensures forall i :: 0 <= i < |WithoutDashes(s)| ==> WithoutDashes(s)[i] != '-'
  {
    if s != [] {
      NoDashes(s[1..]);
    }
  }

  lemma {:induction false} DashFree(s: string)
    requires forall i :: 0 <= i < |s| ==> s[i] != '-'
    ensures WithoutDashes(s) == s
  {
    if s != [] {
      DashFree(s[1..]);
    }
  }

  /** The short form of an identifier is a prefix of its digits. */
  lemma ShortDigits(value: string)
    requires Normalize(value).Some?
    ensures Normalize(ShortId(value)) == Some(Take(Normalize(value).value, SHORT_LENGTH))
  {
    NoDashes(value);
    DashFree(ShortId(value));
    var digits := Normalize(value).value;
    assert LowerAll(ShortId(value)) == Take(digits, SHORT_LENGTH);
  }

  lemma {:induction false} MatchesNone(prefix: string, ids: seq<string>)
    ensures Matches(prefix, ids) == [] <==> forall i :: 0 <= i < |ids| ==> !Fits(ids[i], prefix)
  {
    if ids != [] {
      MatchesNone(prefix, ids[1..]);
      assert forall i :: 1 <= i < |ids| ==> ids[i] == ids[1..][i - 1];
      if Matches(prefix, ids) == [] {
        forall i | 0 <= i < |ids| ensures !Fits(ids[i], prefix) {
          if i > 0 {
            assert !Fits(ids[1..][i - 1], prefix);
          }
        }
      }
    }
  }

  /** A short form of at least four digits resolves back to its identifier exactly when no other entry of the
      listing shares those digits. */
  lemma ShortResolvesIff(ids: seq<string>, k: nat)
    requires k < |ids| && Normalize(ids[k]).Some? && |Normalize(ids[k]).value| >= MIN_PREFIX
    ensures MatchId(ShortId(ids[k]), ids) == Unique(ids[k])
            <==> forall j :: 0 <= j < |ids| && j != k ==> !Fits(ids[j], Take(Normalize(ids[k]).value, SHORT_LENGTH))
  {
    ShortDigits(ids[k]);
    var prefix := Take(Normalize(ids[k]).value, SHORT_LENGTH);
    var a, b := ids[..k], ids[k + 1..];
    assert ids == a + [ids[k]] + b;
    MatchesConcat(prefix, a, [ids[k]]);
    MatchesConcat(prefix, a + [ids[k]], b);
    assert Matches(prefix, [ids[k]]) == [ids[k]] by {
      assert [ids[k]][1..] == [];
      assert Matches(prefix, [ids[k]]) == [ids[k]] + Matches(prefix, [ids[k]][1..]);
    }
    MatchesNone(prefix, a);
    MatchesNone(prefix, b);
    assert forall j :: 0 <= j < k ==> ids[j] == a[j];
    assert forall j :: k < j < |ids| ==> ids[j] == b[j - k - 1];
    if forall j :: 0 <= j < |ids| && j != k ==> !Fits(ids[j], prefix) {
      forall i | 0 <= i < |b| ensures !Fits(b[i], prefix) {
        assert b[i] == ids[i + k + 1];
      }
    }
  }

  /** An entry of the listing that starts with the digits, and the only one. */
  ghost predicate OnlyFit(ids: seq<string>, k: nat, prefix: string) {
    k < |ids| && Fits(ids[k], prefix) && forall j :: 0 <= j < |ids| && j != k ==> !Fits(ids[j], prefix)
  }

  lemma OnlyFitMatches(ids: seq<string>, k: nat, prefix: string)
    requires OnlyFit(ids, k, prefix)
    ensures Matches(prefix, ids) == [ids[k]]
  {
    var a, b := ids[..k], ids[k + 1..];
    assert ids == a + [ids[k]] + b;
    MatchesConcat(prefix, a, [ids[k]]);
    MatchesConcat(prefix, a + [ids[k]], b);
    assert [ids[k]][1..] == [];
    assert Matches(prefix, [ids[k]]) == [ids[k]] + Matches(prefix, [ids[k]][1..]);
    MatchesNone(prefix, a);
    MatchesNone(prefix, b);
  }

  lemma {:induction false} MatchesOne(ids: seq<string>, prefix: string) returns (k: nat)
    requires |Matches(prefix, ids)| == 1
    ensures OnlyFit(ids, k, prefix) && ids[k] == Matches(prefix, ids)[0]
  {
    if Fits(ids[0], prefix) {
      k := 0;
      assert Matches(prefix, ids) == [ids[0]] + Matches(prefix, ids[1..]);
      MatchesNone(prefix, ids[1..]);
      assert forall j :: 0 < j < |ids| ==> ids[j] == ids[1..][j - 1];
    } else {
      assert Matches(prefix, ids) == Matches(prefix, ids[1..]);
      var i := MatchesOne(ids[1..], prefix);
      k := i + 1;
      assert forall j :: 0 < j < |ids| ==> ids[j] == ids[1..][j - 1];
    }
  }

  /** What a reference resolves to: a malformed one or one of fewer than four digits to nothing, any other to the only
      entry of the listing that starts with its digits, if there is exactly one. */
  lemma MatchIff(reference: string, ids: seq<string>)
    ensures var prefix, found := Normalize(reference), MatchId(reference, ids);
            && (found == Malformed <==> prefix.None? || |prefix.value| < 4)
            && (found == NotFound <==> prefix.Some? && |prefix.value| >= 4
                                       && forall j :: 0 <= j < |ids| ==> !Fits(ids[j], prefix.value))
            && (forall x :: found == Unique(x) <==>
                  prefix.Some? && |prefix.value| >= 4 && exists k: nat :: OnlyFit(ids, k, prefix.value) && ids[k] == x)
  {
    var prefix, found := Normalize(reference), MatchId(reference, ids);
    if prefix.Some? && |prefix.value| >= 4 {
      MatchesNone(prefix.value, ids);
      if found.Unique? {
        var k := MatchesOne(ids, prefix.value);
      }
      forall x, k: nat | OnlyFit(ids, k, prefix.value) && ids[k] == x ensures found == Unique(x) {
        OnlyFitMatches(ids, k, prefix.value);
      }
    }
  }

  lemma {:induction false} DashesIgnored(a: string, b: string)
    ensures WithoutDashes(a + "-" + b) == WithoutDashes(a + b)
  {
    if a == [] {
      assert a + "-" + b == "-" + b && ("-" + b)[1..] == b && a + b == b;
    } else {
      assert (a + "-" + b)[1..] == a[1..] + "-" + b && (a + b)[1..] == a[1..] + b;
      DashesIgnored(a[1..], b);
    }
  }

  /** Dashes and case do not matter, and only one to 32 hexadecimal digits are an identifier or prefix. */
  lemma NormalizeMeans(a: string, b: string)
    ensures Normalize(a + "-" + b) == Normalize(a + b)
    ensures var n := Normalize(a + b);
            n.Some? ==> 1 <= |n.value| <= 32
                        && forall i :: 0 <= i < |n.value| ==> '0' <= n.value[i] <= '9' || 'a' <= n.value[i] <= 'f'
  {
    DashesIgnored(a, b);
  }

  /** A text of up to 32 digits, in either case, is its own prefix, in lower case. */
  lemma DigitsNormalize(s: string)
    requires 1 <= |s| <= 32
    requires forall i :: 0 <= i < |s| ==> '0' <= s[i] <= '9' || 'a' <= s[i] <= 'f' || 'A' <= s[i] <= 'F'
    ensures Normalize(s).Some? && |Normalize(s).value| == |s|
    ensures forall i :: 0 <= i < |s| ==>
              Normalize(s).value[i] == if 'A' <= s[i] <= 'F' then (s[i] as int + 32) as char else s[i]
  {
    DashFree(s);
  }

  /** How often an identifier matches depends only on how often it is listed. */
  lemma {:induction false} MatchesCount(prefix: string, ids: seq<string>, x: string)
    ensures multiset(Matches(prefix, ids))[x] == if Fits(x, prefix) then multiset(ids)[x] else 0
  {
    if ids != [] {
      MatchesCount(prefix, ids[1..], x);
      assert ids == [ids[0]] + ids[1..];
    }
  }

  /** The order of the listing does not matter. */
  lemma MatchIgnoresOrder(reference: string, a: seq<string>, b: seq<string>)
    requires multiset(a) == multiset(b)
    ensures MatchId(reference, a) == MatchId(reference, b)
  {
    var prefix := Normalize(reference);
    if prefix.Some? {
      var x, y := Matches(prefix.value, a), Matches(prefix.value, b);
      forall id ensures multiset(x)[id] == multiset(y)[id] {
        MatchesCount(prefix.value, a, id);
        MatchesCount(prefix.value, b, id);
      }
      assert multiset(x) == multiset(y);
      assert |x| == |multiset(x)| && |y| == |multiset(y)|;
      if |x| == 1 {
        assert x[0] in multiset(x);
        assert y[0] in multiset(y);
        assert x == [x[0]] && y == [y[0]];
      }
    }
  }
}
