/** Lexicographic order of strings (by code point, which is also the order of their UTF-8 bytes) and
    sorting by a string key. */
module Ordering {
  import opened Prelude

  /** Strictly before. */
  predicate Before(a: string, b: string)
    decreases |a|
  {
    b != [] && (a == [] || a[0] < b[0] || (a[0] == b[0] && Before(a[1..], b[1..])))
  }

  lemma {:induction false} Irreflexive(a: string)
    ensures !Before(a, a)
    decreases |a|
  {
    if a != [] {
      Irreflexive(a[1..]);
    }
  }

  lemma {:induction false} Transitive(a: string, b: string, c: string)
    requires Before(a, b) && Before(b, c)
    ensures Before(a, c)
    decreases |a|
  {
    if a != [] && a[0] == b[0] && b[0] == c[0] {
      Transitive(a[1..], b[1..], c[1..]);
    }
  }

  lemma {:induction false} Trichotomy(a: string, b: string)
    ensures Before(a, b) || a == b || Before(b, a)
    decreases |a|
  {
    if a != [] && b != [] && a[0] == b[0] {
      Trichotomy(a[1..], b[1..]);
      assert a == [a[0]] + a[1..] && b == [b[0]] + b[1..];
    }
  }

  /** Shorter first among prefixes, smaller first where two texts differ. */
  lemma {:induction false} BeforeMeans(p: string, a: string, b: string)
    ensures a == [] && b != [] ==> Before(p + a, p + b) && !Before(p + b, p + a)
    ensures a != [] && b != [] && a[0] < b[0] ==> Before(p + a, p + b) && !Before(p + b, p + a)
    decreases |p|
  {
    if p == [] {
      assert p + a == a && p + b == b;
    } else {
      assert (p + a)[1..] == p[1..] + a && (p + b)[1..] == p[1..] + b;
      BeforeMeans(p[1..], a, b);
    }
  }

  /** Adjacent keys never decrease. */
  ghost predicate SortedBy<T>(s: seq<T>, key: T -> string) {
    forall i, j :: 0 <= i < j < |s| ==> !Before(key(s[j]), key(s[i]))
  }

  ghost predicate StrictlySortedBy<T>(s: seq<T>, key: T -> string) {
    forall i, j :: 0 <= i < j < |s| ==> Before(key(s[i]), key(s[j]))
  }

  ghost predicate DistinctKeys<T>(s: seq<T>, key: T -> string) {
    forall i, j :: 0 <= i < j < |s| ==> key(s[i]) != key(s[j])
  }

  /** Puts `x` before every element with a key not smaller, so that sorting is stable. */
  function Insert<T>(x: T, s: seq<T>, key: T -> string): seq<T> {
    if s == [] || !Before(key(s[0]), key(x)) then [x] + s else [s[0]] + Insert(x, s[1..], key)
  }

  function SortBy<T>(s: seq<T>, key: T -> string): seq<T> {
    if s == [] then [] else Insert(s[0], SortBy(s[1..], key), key)
  }

  lemma NotAfter(a: string, b: string, c: string)
    requires !Before(b, a) && !Before(c, b)
    ensures !Before(c, a)
  {
    if Before(c, a) {
      Trichotomy(b, a);
      if a == b {
      } else {
        Transitive(c, a, b);
      }
    }
  }

  lemma {:induction false} InsertSorts<T>(x: T, s: seq<T>, key: T -> string)
    requires SortedBy(s, key)
    ensures SortedBy(Insert(x, s, key), key)
    ensures multiset(Insert(x, s, key)) == multiset{x} + multiset(s)
  {
    if s == [] || !Before(key(s[0]), key(x)) {
      forall j | 0 <= j < |s| ensures !Before(key(s[j]), key(x)) {
        if j > 0 {
          NotAfter(key(x), key(s[0]), key(s[j]));
        }
      }
    } else {
      InsertSorts(x, s[1..], key);
      var rest := Insert(x, s[1..], key);
      assert s == [s[0]] + s[1..];
      forall j | 0 <= j < |rest| ensures !Before(key(rest[j]), key(s[0])) {
        assert rest[j] in multiset(rest);
        if rest[j] == x {
          Asymmetric(key(s[0]), key(x));
        } else {
          assert rest[j] in s[1..];
        }
      }
    }
  }

  lemma Asymmetric(a: string, b: string)
    requires Before(a, b)
    ensures !Before(b, a)
  {
    if Before(b, a) {
      Transitive(a, b, a);
      Irreflexive(a);
    }
  }

  lemma {:induction false} SortSorts<T>(s: seq<T>, key: T -> string)
    ensures SortedBy(SortBy(s, key), key)
    ensures multiset(SortBy(s, key)) == multiset(s)
    ensures |SortBy(s, key)| == |s|
  {
    if s != [] {
      SortSorts(s[1..], key);
      InsertSorts(s[0], SortBy(s[1..], key), key);
      assert s == [s[0]] + s[1..];
    }
    assert |SortBy(s, key)| == |multiset(SortBy(s, key))| && |s| == |multiset(s)|;
  }

  /** Elements with distinct keys sort into strictly increasing keys. */
  lemma SortStrict<T>(s: seq<T>, key: T -> string)
    requires DistinctKeys(s, key)
    ensures StrictlySortedBy(SortBy(s, key), key)
  {
    SortSorts(s, key);
    var t := SortBy(s, key);
    DistinctKeysPermute(s, t, key);
    forall i, j | 0 <= i < j < |t| ensures Before(key(t[i]), key(t[j])) {
      Trichotomy(key(t[i]), key(t[j]));
    }
  }

  lemma Counted<T>(s: seq<T>, key: T -> string, x: T, y: T)
    requires DistinctKeys(s, key)
    ensures x in s && y in s && key(x) == key(y) ==> x == y && multiset(s)[x] == 1
  {
    if x in s && y in s && key(x) == key(y) {
      var a :| 0 <= a < |s| && s[a] == x;
      var b :| 0 <= b < |s| && s[b] == y;
      assert s == s[..a] + [s[a]] + s[a + 1..];
      assert s[a] !in s[..a] && s[a] !in s[a + 1..];
    }
  }

  lemma CountedTwice<T>(t: seq<T>, i: nat, j: nat)
    requires i < j < |t|
    ensures t[i] == t[j] ==> multiset(t)[t[i]] >= 2
  {
    assert t == t[..j] + [t[j]] + t[j + 1..];
    assert t[..j][i] == t[i];
  }

  lemma DistinctKeysPermute<T>(s: seq<T>, t: seq<T>, key: T -> string)
    requires DistinctKeys(s, key) && multiset(s) == multiset(t)
    ensures DistinctKeys(t, key)
  {
    forall i, j | 0 <= i < j < |t| ensures key(t[i]) != key(t[j]) {
      assert t[i] in multiset(t) && t[j] in multiset(t);
      Counted(s, key, t[i], t[j]);
      CountedTwice(t, i, j);
    }
  }

  /** Two strictly sorted arrangements of the same elements are the same sequence. */
  lemma {:induction false} StrictlySortedUnique<T>(s: seq<T>, t: seq<T>, key: T -> string)
    requires StrictlySortedBy(s, key) && StrictlySortedBy(t, key)
    requires multiset(s) == multiset(t)
    ensures s == t
  {
    assert |s| == |multiset(s)| == |multiset(t)| == |t|;
    if s != [] {
      LeastFirst(s, t, key);
      LeastFirst(t, s, key);
      if s[0] != t[0] {
        Asymmetric(key(s[0]), key(t[0]));
      }
      assert s == [s[0]] + s[1..] && t == [t[0]] + t[1..];
      assert multiset(s[1..]) == multiset(s) - multiset{s[0]};
      assert multiset(t[1..]) == multiset(t) - multiset{t[0]};
      StrictlySortedUnique(s[1..], t[1..], key);
    }
  }

  lemma LeastFirst<T>(s: seq<T>, t: seq<T>, key: T -> string)
    requires StrictlySortedBy(s, key) && multiset(s) == multiset(t) && s != [] && t != []
    ensures s[0] == t[0] || Before(key(s[0]), key(t[0]))
  {
    assert t[0] in multiset(t);
    var k :| 0 <= k < |s| && s[k] == t[0];
  }

  /** Sorting elements with distinct keys forgets their order. */
  lemma SortForgetsOrder<T>(s: seq<T>, t: seq<T>, key: T -> string)
    requires DistinctKeys(s, key) && multiset(s) == multiset(t)
    ensures SortBy(s, key) == SortBy(t, key)
  {
    DistinctKeysPermute(s, t, key);
    SortSorts(s, key);
    SortSorts(t, key);
    SortStrict(s, key);
    SortStrict(t, key);
    StrictlySortedUnique(SortBy(s, key), SortBy(t, key), key);
  }
}
