/**
 * The order Rust's `Ord for String` uses: lexicographic comparison, character by
 * character. Rust compares the UTF-8 bytes, which orders strings exactly as their
 * code points do, so comparing `char`s here gives the same order. The module also
 * holds the two `Vec` operations the unknown-filter report applies, `sort` and
 * `dedup`, written out as loops over a local sequence.
 */
module StringOrder {

  /** Strict lexicographic order: `a` sorts before `b`. */
  predicate Less(a: string, b: string)
  {
    if |a| == 0 then |b| > 0
    else if |b| == 0 then false
    else a[0] < b[0] || (a[0] == b[0] && Less(a[1..], b[1..]))
  }

  lemma {:induction false} LessIrreflexive(a: string)
    ensures !Less(a, a)
  {
    if |a| > 0 {
      LessIrreflexive(a[1..]);
    }
  }

  lemma {:induction false} LessAsymmetric(a: string, b: string)
    ensures Less(a, b) ==> !Less(b, a)
  {
    if |a| > 0 && |b| > 0 && a[0] == b[0] {
      LessAsymmetric(a[1..], b[1..]);
    }
  }

  lemma {:induction false} LessTransitive(a: string, b: string, c: string)
    requires Less(a, b) && Less(b, c)
    ensures Less(a, c)
  {
    if |a| > 0 && a[0] == b[0] && b[0] == c[0] {
      LessTransitive(a[1..], b[1..], c[1..]);
    }
  }

  lemma {:induction false} LessTotal(a: string, b: string)
    ensures a == b || Less(a, b) || Less(b, a)
  {
    if |a| > 0 && |b| > 0 && a[0] == b[0] {
      LessTotal(a[1..], b[1..]);
      if a[1..] == b[1..] {
        calc {
          a;
          [a[0]] + a[1..];
          [b[0]] + b[1..];
          b;
        }
      }
    }
  }

  /** The elements of `s`, forgetting order and multiplicity. */
  function Elements(s: seq<string>): set<string>
  {
    set x | x in s
  }

  /** Only the empty sequence has no elements. */
  lemma ElementsEmpty(s: seq<string>)
    ensures Elements(s) == {} <==> |s| == 0
  {
    if |s| > 0 {
      assert s[0] in Elements(s);
    }
  }

  lemma ElementsSnoc(s: seq<string>, x: string)
    ensures Elements(s + [x]) == Elements(s) + {x}
  {
    assert (s + [x])[|s|] == x;
  }

  /** A permutation has the same elements. */
  lemma PermutationKeepsElements(a: seq<string>, b: seq<string>)
    requires multiset(a) == multiset(b)
    ensures Elements(a) == Elements(b)
  {
    forall x ensures x in a <==> x in b {
      assert x in a <==> x in multiset(a);
      assert x in b <==> x in multiset(b);
    }
  }

  /** Non-decreasing: no element sorts before one to its left. */
  predicate Sorted(s: seq<string>)
  {
    forall i, j | 0 <= i < j < |s| :: !Less(s[j], s[i])
  }

  /** Increasing, hence also free of duplicates. */
  predicate StrictlySorted(s: seq<string>)
  {
    forall i, j | 0 <= i < j < |s| :: Less(s[i], s[j])
  }

  /** A strictly sorted sequence is determined by its elements. */
  lemma {:induction false} StrictlySortedUnique(a: seq<string>, b: seq<string>)
    requires StrictlySorted(a) && StrictlySorted(b)
    requires Elements(a) == Elements(b)
    ensures a == b
  {
    ElementsEmpty(a);
    ElementsEmpty(b);
    if |a| > 0 {
      assert a[0] in Elements(b);
      assert b[0] in Elements(a);
      var j :| 0 <= j < |b| && b[j] == a[0];
      var i :| 0 <= i < |a| && a[i] == b[0];
      if a[0] != b[0] {
        assert i > 0 && j > 0;
        LessAsymmetric(a[0], b[0]);
        assert false;
      }
      forall x | x in Elements(a[1..]) ensures x in Elements(b[1..]) {
        var k :| 0 <= k < |a[1..]| && a[1..][k] == x;
        assert a[k + 1] == x && x in Elements(a);
        LessIrreflexive(x);
        var m :| 0 <= m < |b| && b[m] == x;
        assert m > 0;
        assert b[1..][m - 1] == x;
      }
      forall x | x in Elements(b[1..]) ensures x in Elements(a[1..]) {
        var k :| 0 <= k < |b[1..]| && b[1..][k] == x;
        assert b[k + 1] == x && x in Elements(b);
        LessIrreflexive(x);
        var m :| 0 <= m < |a| && a[m] == x;
        assert m > 0;
        assert a[1..][m - 1] == x;
      }
      StrictlySortedUnique(a[1..], b[1..]);
      calc {
        a;
        [a[0]] + a[1..];
        [b[0]] + b[1..];
        b;
      }
    }
  }

  /** One step of insertion sort: `x` goes after every element that does not sort after it. */
  method Insert(r: seq<string>, x: string) returns (r': seq<string>)
    requires Sorted(r)
    ensures Sorted(r')
    ensures multiset(r') == multiset(r) + multiset{x}
  {
    var k := 0;
    while k < |r| && !Less(x, r[k])
      invariant 0 <= k <= |r|
      invariant forall j | 0 <= j < k :: !Less(x, r[j])
    {
      k := k + 1;
    }
    r' := r[..k] + [x] + r[k..];
    assert r == r[..k] + r[k..];
    InsertSorted(r, k, x);
  }

  /** Putting `x` after the elements that do not sort after it and before the rest keeps a sequence sorted. */
  lemma InsertSorted(r: seq<string>, k: nat, x: string)
    requires Sorted(r) && k <= |r|
    requires forall j | 0 <= j < k :: !Less(x, r[j])
    requires k < |r| ==> Less(x, r[k])
    ensures Sorted(r[..k] + [x] + r[k..])
  {
    var s := r[..k] + [x] + r[k..];
    forall i, j | 0 <= i < j < |s| ensures !Less(s[j], s[i]) {
      if j < k {
        assert s[i] == r[i] && s[j] == r[j];
      } else if j == k {
        assert s[i] == r[i] && s[j] == x;
      } else if i > k {
        assert s[i] == r[i - 1] && s[j] == r[j - 1];
      } else if i < k {
        assert s[i] == r[i] && s[j] == r[j - 1];
      } else {
        assert s[i] == x && s[j] == r[j - 1];
        if Less(r[j - 1], x) {
          LessTransitive(r[j - 1], x, r[k]);
          if j - 1 == k {
            LessIrreflexive(r[k]);
          }
        }
      }
    }
  }

  /** `Vec::sort`: a sorted permutation of `v`. */
  method Sort(v: seq<string>) returns (r: seq<string>)
    ensures Sorted(r)
    ensures multiset(r) == multiset(v)
  {
    r := [];
    for i := 0 to |v|
      invariant Sorted(r)
      invariant multiset(r) == multiset(v[..i])
    {
      r := Insert(r, v[i]);
      assert v[..i + 1] == v[..i] + [v[i]];
    }
    assert v[..|v|] == v;
  }

  /** The elements of `v` that differ from their predecessor: the first of each run of equal ones, in order. */
  function Deduped(v: seq<string>): seq<string>
  {
    if |v| <= 1 then v
    else Deduped(v[..|v| - 1]) + (if v[|v| - 1] != v[|v| - 2] then [v[|v| - 1]] else [])
  }

  /** One more element: it is kept exactly when it is the first or differs from its predecessor. */
  lemma DedupedStep(v: seq<string>, i: nat)
    requires i < |v|
    ensures Deduped(v[..i + 1]) == Deduped(v[..i]) + (if i == 0 || v[i] != v[i - 1] then [v[i]] else [])
  {
    assert v[..i + 1][..i] == v[..i];
  }

  /** The last element always survives. */
  lemma {:induction false} DedupedLast(v: seq<string>)
    requires |v| > 0
    ensures |Deduped(v)| > 0 && Deduped(v)[|Deduped(v)| - 1] == v[|v| - 1]
  {
    if |v| > 1 {
      DedupedLast(v[..|v| - 1]);
    }
  }

  /** Deduplication keeps every element at least once. */
  lemma {:induction false} DedupedElements(v: seq<string>)
    ensures Elements(Deduped(v)) == Elements(v)
  {
    if |v| > 1 {
      var u, x := v[..|v| - 1], v[|v| - 1];
      DedupedElements(u);
      assert v == u + [x];
      ElementsSnoc(u, x);
      if x == v[|v| - 2] {
        assert x == u[|u| - 1];
      } else {
        ElementsSnoc(Deduped(u), x);
      }
    }
  }

  /** No two neighbours of the result are equal. */
  lemma {:induction false} DedupedNoAdjacent(v: seq<string>)
    ensures forall k | 0 <= k < |Deduped(v)| - 1 :: Deduped(v)[k] != Deduped(v)[k + 1]
  {
    if |v| > 1 {
      var u := v[..|v| - 1];
      DedupedNoAdjacent(u);
      DedupedLast(u);
      assert u[|u| - 1] == v[|v| - 2];
    }
  }

  /** A sorted input comes out strictly sorted. */
  lemma {:induction false} DedupedSorted(v: seq<string>)
    requires Sorted(v)
    ensures StrictlySorted(Deduped(v))
  {
    if |v| > 1 {
      var u, x := v[..|v| - 1], v[|v| - 1];
      assert Sorted(u);
      DedupedSorted(u);
      var d := Deduped(u);
      if x != v[|v| - 2] {
        DedupedLast(u);
        var y := v[|v| - 2];
        assert d[|d| - 1] == y;
        LessTotal(y, x);
        forall k | 0 <= k < |d| ensures Less(d[k], x) {
          if k < |d| - 1 {
            LessTransitive(d[k], y, x);
          }
        }
      }
    }
  }

  /**
   * `Vec::dedup`: drops every element equal to the one kept just before it,
   * which within a run of equal elements is the one before it in `v`. The
   * elements are kept, no two neighbours are equal, and a sorted input
   * becomes strictly sorted.
   */
  method Dedup(v: seq<string>) returns (r: seq<string>)
    ensures r == Deduped(v)
    ensures Elements(r) == Elements(v)
    ensures forall k | 0 <= k < |r| - 1 :: r[k] != r[k + 1]
    ensures Sorted(v) ==> StrictlySorted(r)
  {
    r := [];
    for i := 0 to |v|
      invariant r == Deduped(v[..i])
      invariant i > 0 ==> |r| > 0 && r[|r| - 1] == v[i - 1]
    {
      DedupedStep(v, i);
      if i == 0 || v[i] != r[|r| - 1] {
        r := r + [v[i]];
      }
    }
    assert v[..|v|] == v;
    DedupedElements(v);
    DedupedNoAdjacent(v);
    if Sorted(v) {
      DedupedSorted(v);
    }
  }
}
