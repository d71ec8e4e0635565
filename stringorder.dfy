/** Python's ordering of `str` values (code point by code point, a proper
    prefix first) and `sorted()` of a set of keys under it. */
module StringOrder {

  /** `a < b` on Python strings. */
  predicate Below(a: string, b: string)
  {
    if a == [] then b != []
    else b != [] && (a[0] < b[0] || (a[0] == b[0] && Below(a[1..], b[1..])))
  }

  lemma {:induction false} BelowIrreflexive(a: string)
    ensures !Below(a, a)
  {
    if a != [] {
      BelowIrreflexive(a[1..]);
    }
  }

  lemma {:induction false} BelowTransitive(a: string, b: string, c: string)
    requires Below(a, b) && Below(b, c)
    ensures Below(a, c)
  {
    if a != [] && a[0] == b[0] && b[0] == c[0] {
      BelowTransitive(a[1..], b[1..], c[1..]);
    }
  }

  /** Two different strings are ordered one way or the other. */
  lemma {:induction false} BelowTotal(a: string, b: string)
    ensures a == b || Below(a, b) || Below(b, a)
  {
    if a != [] && b != [] && a[0] == b[0] {
      BelowTotal(a[1..], b[1..]);
      if a[1..] == b[1..] {
        assert a == [a[0]] + a[1..] && b == [b[0]] + b[1..];
      }
    }
  }

  lemma BelowAsymmetric(a: string, b: string)
    requires Below(a, b)
    ensures !Below(b, a)
  {
    if Below(b, a) {
      BelowTransitive(a, b, a);
      BelowIrreflexive(a);
    }
  }

  predicate Ascending(r: seq<string>)
  {
    forall i, j :: 0 <= i < j < |r| ==> Below(r[i], r[j])
  }

  predicate IsLeast(m: string, s: set<string>)
  {
    m in s && forall x :: x in s && x != m ==> Below(m, x)
  }

  lemma {:induction false} LeastExists(s: set<string>)
    requires s != {}
    ensures exists m :: IsLeast(m, s)
    decreases s
  {
    var y :| y in s;
    var rest := s - {y};
    if rest == {} {
      assert s == {y};
      assert IsLeast(y, s);
    } else {
      LeastExists(rest);
      var m :| IsLeast(m, rest);
      BelowTotal(y, m);
      var least := if Below(y, m) then y else m;
      forall x | x in s && x != least
        ensures Below(least, x)
      {
        if least == y && x != m {
          BelowTransitive(y, m, x);
        }
      }
      assert IsLeast(least, s);
    }
  }

  lemma LeastUnique(s: set<string>)
    ensures forall m, n :: IsLeast(m, s) && IsLeast(n, s) ==> m == n
  {
    forall m, n | IsLeast(m, s) && IsLeast(n, s)
      ensures m == n
    {
      if m != n {
        BelowAsymmetric(m, n);
      }
    }
  }

  lemma PrependLeast(m: string, rest: seq<string>)
    requires Ascending(rest)
    requires forall x :: x in rest ==> Below(m, x)
    ensures Ascending([m] + rest)
  {
    forall i, j | 0 <= i < j < |[m] + rest|
      ensures Below(([m] + rest)[i], ([m] + rest)[j])
    {
      if i > 0 {
        assert ([m] + rest)[i] == rest[i - 1];
      }
      assert ([m] + rest)[j] == rest[j - 1] && rest[j - 1] in rest;
    }
  }

  /** `sorted(keys)`: the keys in ascending order, each once. */
  function Sorted(s: set<string>): (r: seq<string>)
    ensures |r| == |s|
    ensures forall x :: x in r <==> x in s
    ensures Ascending(r)
    decreases s
  {
    if s == {} then []
    else
      LeastExists(s);
      LeastUnique(s);
      var m :| IsLeast(m, s);
      var rest := Sorted(s - {m});
      PrependLeast(m, rest);
      [m] + rest
  }

  /** The number of keys of `s` below `k`: the index `k` has in `sorted(s)`. */
  function Rank(k: string, s: set<string>): nat
  {
    |Lower(k, s)|
  }

  /** The keys of `s` below `k`. */
  function Lower(k: string, s: set<string>): set<string>
  {
    set x | x in s && Below(x, k)
  }

  /** A key's rank counts other keys of `s` only: it is below `|s|` when
      the key is one of them. */
  lemma RankBound(k: string, s: set<string>)
    ensures Lower(k, s) <= s - {k}
    ensures Rank(k, s) <= |s| && (k in s ==> Rank(k, s) < |s|)
  {
    BelowIrreflexive(k);
    SubsetCard(Lower(k, s), s - {k});
  }

  lemma {:induction false} SubsetCard(a: set<string>, b: set<string>)
    requires a <= b
    ensures |a| <= |b|
  {
    if a != {} {
      var x :| x in a;
      SubsetCard(a - {x}, b - {x});
    }
  }

  /** The values a sequence lists. */
  function Elements(r: seq<string>): set<string>
  {
    set x | x in r
  }

  /** One more element of a prefix adds that element to its values. */
  lemma ElementsNext(r: seq<string>, i: nat)
    requires i < |r|
    ensures Elements(r[..i + 1]) == Elements(r[..i]) + {r[i]}
  {
    assert r[..i + 1] == r[..i] + [r[i]];
  }

  /** A sequence whose elements are pairwise different has as many elements
      as distinct values. */
  lemma {:induction false} DistinctCard(r: seq<string>)
    requires forall i, j :: 0 <= i < j < |r| ==> r[i] != r[j]
    ensures |Elements(r)| == |r|
  {
    if r != [] {
      var init := r[..|r| - 1];
      DistinctCard(init);
      var last := r[|r| - 1];
      assert Elements(r) == Elements(init) + {last};
      assert last !in Elements(init);
    }
  }

  /** The keys below the `i`-th key of an ascending listing are exactly
      the keys listed before it. */
  lemma BelowIsBefore(r: seq<string>, s: set<string>, i: nat)
    requires Ascending(r) && (forall x :: x in r <==> x in s) && i < |r|
    ensures Lower(r[i], s) == Elements(r[..i])
  {
    forall x | x in s && Below(x, r[i])
      ensures x in r[..i]
    {
      var j :| 0 <= j < |r| && r[j] == x;
      if j == i {
        BelowIrreflexive(x);
      } else if j > i {
        BelowAsymmetric(r[i], r[j]);
      }
      assert r[..i][j] == x;
    }
    forall x | x in r[..i]
      ensures x in s && Below(x, r[i])
    {
      var j :| 0 <= j < i && r[..i][j] == x;
      assert r[j] == x;
    }
  }

  /** The key at index `i` of an ascending listing of `s` has rank `i`. */
  lemma RankOfListing(r: seq<string>, s: set<string>, i: nat)
    requires Ascending(r) && (forall x :: x in r <==> x in s) && i < |r|
    ensures Rank(r[i], s) == i
  {
    BelowIsBefore(r, s, i);
    forall a, b | 0 <= a < b < |r[..i]|
      ensures r[..i][a] != r[..i][b]
    {
      assert r[..i][a] == r[a] && r[..i][b] == r[b] && Below(r[a], r[b]);
      BelowIrreflexive(r[a]);
    }
    DistinctCard(r[..i]);
  }

  /** The first `n` keys of an ascending listing of `s` are the keys of rank
      below `n`. */
  lemma PrefixByRank(r: seq<string>, s: set<string>, n: nat)
    requires Ascending(r) && (forall x :: x in r <==> x in s) && n <= |r|
    ensures Elements(r[..n]) == (set k | k in s && Rank(k, s) < n)
  {
    forall k | k in r[..n]
      ensures k in s && Rank(k, s) < n
    {
      var j :| 0 <= j < n && r[..n][j] == k;
      RankOfListing(r, s, j);
    }
    forall k | k in s && Rank(k, s) < n
      ensures k in r[..n]
    {
      var j :| 0 <= j < |r| && r[j] == k;
      RankOfListing(r, s, j);
      assert r[..n][j] == k;
    }
  }
}
