/** Generic sequence helpers shared by the image pipeline and the page views. */
module Seqs {

  /** No element occurs twice. */
  predicate NoDup<T(==)>(s: seq<T>)
  {
    forall i, j :: 0 <= i < j < |s| ==> s[i] != s[j]
  }

  /** `a` is obtained from `b` by deleting elements, order kept (greedy test). */
  predicate IsSubsequence<T(==)>(a: seq<T>, b: seq<T>)
    decreases |b|
  {
    if a == [] then true
    else if b == [] then false
    else if a[0] == b[0] then IsSubsequence(a[1..], b[1..])
    else IsSubsequence(a, b[1..])
  }

  /** A subsequence is no longer than the sequence it is taken from. */
  lemma {:induction false} SubsequenceLength<T>(a: seq<T>, b: seq<T>)
    requires IsSubsequence(a, b)
    ensures |a| <= |b|
    decreases |b|
  {
    if a != [] {
      if a[0] == b[0] {
        SubsequenceLength(a[1..], b[1..]);
      } else {
        SubsequenceLength(a, b[1..]);
      }
    }
  }

  lemma {:induction false} SubsequenceDropHead<T>(a: seq<T>, b: seq<T>)
    requires a != [] && IsSubsequence(a, b)
    ensures IsSubsequence(a[1..], b)
    decreases |b|
  {
    if a[0] != b[0] {
      SubsequenceDropHead(a, b[1..]);
    }
    // now IsSubsequence(a[1..], b[1..]) holds in both cases
    if a[1..] != [] && a[1..][0] == b[0] {
      SubsequenceDropHead(a[1..], b[1..]);
      assert a[1..][1..] == a[2..];
    }
  }

  /** A subsequence of `b` stays one when an element is put in front of `b`. */
  lemma {:induction false} SubsequenceCons<T>(a: seq<T>, b: seq<T>, x: T)
    requires IsSubsequence(a, b)
    ensures IsSubsequence(a, [x] + b)
  {
    assert ([x] + b)[1..] == b;
    if a != [] && a[0] == x {
      SubsequenceDropHead(a, b);
    }
  }

  /** The elements of `s` that satisfy `p`, in order (JavaScript `filter`). */
  function Filter<T(!new)>(s: seq<T>, p: T -> bool): seq<T>
  {
    if s == [] then [] else (if p(s[0]) then [s[0]] else []) + Filter(s[1..], p)
  }

  /** What `Filter` keeps: exactly the elements that satisfy `p`, and no more of them than `s` has. */
  lemma {:induction false} FilterMembers<T(!new)>(s: seq<T>, p: T -> bool)
    ensures |Filter(s, p)| <= |s|
    ensures forall x :: x in Filter(s, p) <==> x in s && p(x)
  {
    if s != [] {
      FilterMembers(s[1..], p);
      assert forall x :: x in s <==> x == s[0] || x in s[1..];
    }
  }

  lemma {:induction false} FilterIsSubsequence<T(!new)>(s: seq<T>, p: T -> bool)
    ensures IsSubsequence(Filter(s, p), s)
  {
    if s != [] {
      FilterIsSubsequence(s[1..], p);
      if p(s[0]) {
        assert Filter(s, p) == [s[0]] + Filter(s[1..], p);
        assert (Filter(s, p))[1..] == Filter(s[1..], p);
      } else {
        assert Filter(s, p) == Filter(s[1..], p);
        SubsequenceCons(Filter(s[1..], p), s[1..], s[0]);
        assert [s[0]] + s[1..] == s;
      }
    }
  }

  lemma {:induction false} FilterIdempotent<T(!new)>(s: seq<T>, p: T -> bool)
    ensures Filter(Filter(s, p), p) == Filter(s, p)
  {
    if s != [] {
      FilterIdempotent(s[1..], p);
      if p(s[0]) {
        var f := Filter(s, p);
        assert f == [s[0]] + Filter(s[1..], p);
        assert f[1..] == Filter(s[1..], p);
        assert Filter(f, p) == [s[0]] + Filter(f[1..], p);
      } else {
        assert Filter(s, p) == [] + Filter(s[1..], p) == Filter(s[1..], p);
      }
    }
  }

  lemma {:induction false} NoDupFilter<T(!new)>(s: seq<T>, p: T -> bool)
    requires NoDup(s)
    ensures NoDup(Filter(s, p))
  {
    if s != [] {
      assert NoDup(s[1..]) by {
        forall i, j | 0 <= i < j < |s[1..]| ensures s[1..][i] != s[1..][j] {
          assert s[1..][i] == s[i + 1] && s[1..][j] == s[j + 1];
        }
      }
      NoDupFilter(s[1..], p);
      FilterMembers(s[1..], p);
      var rest := Filter(s[1..], p);
      if p(s[0]) {
        assert s[0] !in s[1..];
        var r := [s[0]] + rest;
        forall i, j | 0 <= i < j < |r| ensures r[i] != r[j] {
          if i == 0 {
            assert r[j] == rest[j - 1] && r[j] in rest;
          } else {
            assert r[i] == rest[i - 1] && r[j] == rest[j - 1];
          }
        }
      } else {
        assert Filter(s, p) == rest;
      }
    }
  }

  lemma {:induction false} NoDupOnce<T>(s: seq<T>, x: T)
    requires NoDup(s)
    ensures multiset(s)[x] == if x in s then 1 else 0
  {
    if s != [] {
      assert s == [s[0]] + s[1..];
      assert NoDup(s[1..]) by {
        forall i, j | 0 <= i < j < |s[1..]| ensures s[1..][i] != s[1..][j] {
          assert s[1..][i] == s[i + 1] && s[1..][j] == s[j + 1];
        }
      }
      NoDupOnce(s[1..], x);
      assert s[0] !in s[1..];
    }
  }

  /** A permutation of a sequence without repeats has none either. */
  lemma NoDupPermutation<T>(a: seq<T>, b: seq<T>)
    requires NoDup(a) && multiset(a) == multiset(b)
    ensures NoDup(b)
  {
    forall i, j | 0 <= i < j < |b| ensures b[i] != b[j] {
      NoDupOnce(a, b[i]);
      TwoOccurrences(b, i, j);
    }
  }

  lemma TwoOccurrences<T>(b: seq<T>, i: nat, j: nat)
    requires i < j < |b|
    ensures b[i] == b[j] ==> multiset(b)[b[i]] >= 2
  {
    assert b == b[..j] + b[j..];
    assert b[i] in b[..j] && b[j] in b[j..];
    assert multiset(b)[b[i]] == multiset(b[..j])[b[i]] + multiset(b[j..])[b[i]];
  }

  /** The test "has key `k`". */
  function Matches<T, K(==)>(key: T -> K, k: K): T -> bool
  {
    (x: T) => key(x) == k
  }

  /** The sizes of the classes of `s` with the keys `ks`, added up. */
  function ClassSizes<T(!new), K(==)>(s: seq<T>, key: T -> K, ks: seq<K>): nat
  {
    if ks == [] then 0 else |Filter(s, Matches(key, ks[0]))| + ClassSizes(s, key, ks[1..])
  }

  lemma {:induction false} ClassSizesCons<T(!new), K>(x: T, s: seq<T>, key: T -> K, ks: seq<K>)
    ensures ClassSizes([x] + s, key, ks) == ClassSizes(s, key, ks) + multiset(ks)[key(x)]
  {
    if ks != [] {
      ClassSizesCons(x, s, key, ks[1..]);
      assert ([x] + s)[1..] == s;
      assert ks == [ks[0]] + ks[1..];
    }
  }

  /**
    Classes by distinct keys that cover every key of `s` partition it: their
    sizes add up to the length of `s`.
   */
  lemma {:induction false} ClassSizesPartition<T(!new), K>(s: seq<T>, key: T -> K, ks: seq<K>)
    requires NoDup(ks) && forall x :: x in s ==> key(x) in ks
    ensures ClassSizes(s, key, ks) == |s|
  {
    if s == [] {
      ClassSizesEmpty(key, ks);
    } else {
      assert s == [s[0]] + s[1..];
      ClassSizesPartition(s[1..], key, ks);
      ClassSizesCons(s[0], s[1..], key, ks);
      NoDupOnce(ks, key(s[0]));
    }
  }

  lemma {:induction false} ClassSizesEmpty<T(!new), K>(key: T -> K, ks: seq<K>)
    ensures ClassSizes([], key, ks) == 0
  {
    if ks != [] {
      ClassSizesEmpty(key, ks[1..]);
    }
  }

  lemma {:induction false} FilterAppend<T(!new)>(a: seq<T>, b: seq<T>, p: T -> bool)
    ensures Filter(a + b, p) == Filter(a, p) + Filter(b, p)
  {
    if a != [] {
      FilterAppend(a[1..], b, p);
      assert (a + b)[0] == a[0] && (a + b)[1..] == a[1..] + b;
    } else {
      assert a + b == b;
    }
  }

  lemma {:induction false} FilterAll<T(!new)>(s: seq<T>, p: T -> bool)
    requires forall x :: x in s ==> p(x)
    ensures Filter(s, p) == s
  {
    if s != [] {
      assert s[0] in s;
      FilterAll(s[1..], p);
    }
  }

  /** The set of keys of the elements of `s`. */
  function KeysOf<T(==,!new), K>(s: seq<T>, key: T -> K): set<K>
  {
    set x | x in s :: key(x)
  }

  /**
    Keeps, in order, each element whose key is neither in `seen` nor the key of
    an element kept before it. With the identity key and an empty `seen` this
    is Python's `list(dict.fromkeys(s))`.
   */
  function DedupBy<T(==,!new), K(==)>(s: seq<T>, key: T -> K, seen: set<K>): seq<T>
  {
    if s == [] then []
    else if key(s[0]) in seen then DedupBy(s[1..], key, seen)
    else [s[0]] + DedupBy(s[1..], key, seen + {key(s[0])})
  }

  /** `DedupBy` keeps elements of `s`, in their order, and only those whose key is not in `seen`. */
  lemma {:induction false} DedupByWithin<T(!new), K>(s: seq<T>, key: T -> K, seen: set<K>)
    ensures var r := DedupBy(s, key, seen);
      && |r| <= |s|
      && (forall x :: x in r ==> x in s && key(x) !in seen)
      && IsSubsequence(r, s)
    decreases |s|
  {
    if s != [] {
      if key(s[0]) in seen {
        DedupByWithin(s[1..], key, seen);
        SubsequenceCons(DedupBy(s[1..], key, seen), s[1..], s[0]);
        assert [s[0]] + s[1..] == s;
      } else {
        DedupByWithin(s[1..], key, seen + {key(s[0])});
        var rest := DedupBy(s[1..], key, seen + {key(s[0])});
        assert forall x :: x in [s[0]] + rest ==> x == s[0] || x in rest;
        assert IsSubsequence([s[0]] + rest, s);
      }
    }
  }

  /** No two elements of `r` share a key. */
  ghost predicate DistinctKeys<T, K>(r: seq<T>, key: T -> K)
  {
    forall i, j :: 0 <= i < j < |r| ==> key(r[i]) != key(r[j])
  }

  /** The keys of what `DedupBy` keeps are pairwise distinct. */
  lemma {:induction false} DedupByDistinct<T(!new), K>(s: seq<T>, key: T -> K, seen: set<K>)
    ensures DistinctKeys(DedupBy(s, key, seen), key)
    decreases |s|
  {
    if s != [] {
      if key(s[0]) in seen {
        DedupByDistinct(s[1..], key, seen);
        assert DedupBy(s, key, seen) == DedupBy(s[1..], key, seen);
      } else {
        DedupByDistinct(s[1..], key, seen + {key(s[0])});
        DedupByWithin(s[1..], key, seen + {key(s[0])});
        var rest := DedupBy(s[1..], key, seen + {key(s[0])});
        var r := [s[0]] + rest;
        assert DedupBy(s, key, seen) == r;
        forall i, j | 0 <= i < j < |r| ensures key(r[i]) != key(r[j]) {
          if i == 0 {
            assert r[j] == rest[j - 1] && rest[j - 1] in rest;
          } else {
            assert r[i] == rest[i - 1] && r[j] == rest[j - 1];
          }
        }
      }
    }
  }

  /** Every key of `s` is in `seen` or is the key of something `DedupBy` keeps. */
  lemma {:induction false} DedupByCovers<T(!new), K>(s: seq<T>, key: T -> K, seen: set<K>)
    ensures forall x :: x in s ==> key(x) in seen + KeysOf(DedupBy(s, key, seen), key)
    decreases |s|
  {
    if s != [] {
      if key(s[0]) in seen {
        DedupByCovers(s[1..], key, seen);
        assert DedupBy(s, key, seen) == DedupBy(s[1..], key, seen);
        assert forall x :: x in s ==> x == s[0] || x in s[1..];
      } else {
        DedupByCovers(s[1..], key, seen + {key(s[0])});
        var rest := DedupBy(s[1..], key, seen + {key(s[0])});
        var r := [s[0]] + rest;
        forall x | x in s ensures key(x) in seen + KeysOf(r, key) {
          if x != s[0] {
            assert x in s[1..];
            if key(x) !in seen + {key(s[0])} {
              var y :| y in rest && key(y) == key(x);
              assert y in r;
            }
          } else {
            assert s[0] in r;
          }
        }
      }
    }
  }

  /** The first element of `s` with a key not in `seen` is kept. */
  lemma {:induction false} DedupByKeepsFirst<T(!new), K>(s: seq<T>, key: T -> K, seen: set<K>, i: nat)
    requires i < |s| && key(s[i]) !in seen
    requires forall k :: 0 <= k < i ==> key(s[k]) != key(s[i])
    ensures s[i] in DedupBy(s, key, seen)
    decreases i
  {
    if i > 0 {
      assert s[i] == s[1..][i - 1];
      assert forall k :: 0 <= k < i - 1 ==> s[1..][k] == s[k + 1];
      if key(s[0]) in seen {
        DedupByKeepsFirst(s[1..], key, seen, i - 1);
      } else {
        DedupByKeepsFirst(s[1..], key, seen + {key(s[0])}, i - 1);
      }
    }
  }

  /**
    What `DedupBy` keeps: elements of `s` in their order, whose keys are
    pairwise distinct and new, and whose keys together with `seen` cover every
    key of `s`; of the elements sharing a new key, the first is the one kept.
   */
  lemma DedupByProperties<T(!new), K>(s: seq<T>, key: T -> K, seen: set<K>)
    ensures var r := DedupBy(s, key, seen);
      && |r| <= |s|
      && (forall x :: x in r ==> x in s && key(x) !in seen)
      && (forall i, j :: 0 <= i < j < |r| ==> key(r[i]) != key(r[j]))
      && (forall x :: x in s ==> key(x) in seen + KeysOf(r, key))
      && IsSubsequence(r, s)
      && (forall i :: 0 <= i < |s| && key(s[i]) !in seen && (forall k :: 0 <= k < i ==> key(s[k]) != key(s[i]))
            ==> s[i] in r)
  {
    DedupByWithin(s, key, seen);
    DedupByDistinct(s, key, seen);
    DedupByCovers(s, key, seen);
    forall i | 0 <= i < |s| && key(s[i]) !in seen && (forall k :: 0 <= k < i ==> key(s[k]) != key(s[i]))
      ensures s[i] in DedupBy(s, key, seen)
    {
      DedupByKeepsFirst(s, key, seen, i);
    }
  }

  /** Offering one more element appends it exactly when its key is new. */
  lemma {:induction false} DedupBySnoc<T(!new), K>(s: seq<T>, x: T, key: T -> K, seen: set<K>)
    ensures DedupBy(s + [x], key, seen)
         == DedupBy(s, key, seen) + (if key(x) in seen + KeysOf(s, key) then [] else [x])
    decreases |s|
  {
    if s == [] {
      assert s + [x] == [x] && [x][1..] == [];
    } else {
      assert (s + [x])[0] == s[0] && (s + [x])[1..] == s[1..] + [x];
      assert KeysOf(s, key) == {key(s[0])} + KeysOf(s[1..], key) by {
        assert forall y :: y in s <==> y == s[0] || y in s[1..];
      }
      if key(s[0]) in seen {
        DedupBySnoc(s[1..], x, key, seen);
      } else {
        DedupBySnoc(s[1..], x, key, seen + {key(s[0])});
      }
    }
  }

  lemma AppendAssociative<T>(a: seq<T>, b: seq<T>, c: seq<T>)
    ensures a + b + c == a + (b + c)
  {
  }

  lemma KeysOfAppend<T(!new), K>(a: seq<T>, b: seq<T>, key: T -> K)
    ensures KeysOf(a + b, key) == KeysOf(a, key) + KeysOf(b, key)
  {
    assert forall x :: x in a + b <==> x in a || x in b;
  }

  function Identity<T>(x: T): T { x }

  /** Order-preserving removal of repeated elements, keeping first occurrences. */
  function Dedup<T(==,!new)>(s: seq<T>): (r: seq<T>)
    ensures NoDup(r)
    ensures forall x :: x in r <==> x in s
    ensures IsSubsequence(r, s)
  {
    var r := DedupBy(s, Identity, {});
    DedupByProperties(s, Identity, {});
    assert forall x :: x in s ==> x in r by {
      forall x | x in s ensures x in r {
        assert Identity(x) in KeysOf(r, Identity);
      }
    }
    r
  }

  /**
    The insertion law of `dict.fromkeys`: a new element goes to the end, a
    repeated one changes nothing. With `Dedup([]) == []` it fixes `Dedup`
    completely, so every element sits at its first occurrence.
   */
  lemma DedupSnoc<T(!new)>(s: seq<T>, x: T)
    ensures Dedup(s + [x]) == if x in s then Dedup(s) else Dedup(s) + [x]
  {
    DedupBySnoc(s, x, Identity, {});
    assert x in KeysOf(s, Identity) <==> x in s by {
      if x in s { assert Identity(x) in KeysOf(s, Identity); }
    }
  }

  /** Python's `s[:n]`: a negative `n` counts from the end. */
  function PyTake<T>(s: seq<T>, n: int): seq<T>
  {
    if n >= 0 then s[..if n < |s| then n else |s|]
    else s[..if -n < |s| then |s| + n else 0]
  }
}
