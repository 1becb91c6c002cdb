/**
 * Lexicographic order on symbol names, used as a certificate that the keys of
 * a table are pairwise distinct: listing a table's rows in strictly ascending
 * key order, and showing that this listing holds exactly the table's rows,
 * proves that no key repeats, and it also decides which keys are absent.
 */
module KeyOrder {
  import opened Tables

  /**
   * `a` and `b` agree on their first `p` characters, and at position `p`
   * either `a` has ended or its character is the smaller one.
   */
  predicate DiffersFirstAt(a: string, b: string, p: nat)
  {
    p <= |a| && p < |b| && a[..p] == b[..p] && (p == |a| || a[p] < b[p])
  }

  /** `a` sorts strictly before `b`: character by character, a proper prefix first. */
  ghost predicate Precedes(a: string, b: string)
  {
    exists p: nat :: DiffersFirstAt(a, b, p)
  }

  /** Comparing two names character by character up to their first difference. */
  lemma PrecedesAt(a: string, b: string, p: nat)
    requires p <= |a| && p < |b|
    requires forall k | 0 <= k < p :: a[k] == b[k]
    requires p == |a| || a[p] < b[p]
    ensures Precedes(a, b)
  {
    assert a[..p] == b[..p];
    assert DiffersFirstAt(a, b, p);
  }

  lemma PrecedesIrreflexive(a: string)
    ensures !Precedes(a, a)
  {
  }

  lemma PrecedesTransitive(a: string, b: string, c: string)
    requires Precedes(a, b) && Precedes(b, c)
    ensures Precedes(a, c)
  {
    var p: nat :| DiffersFirstAt(a, b, p);
    var q: nat :| DiffersFirstAt(b, c, q);
    if p <= q {
      assert DiffersFirstAt(a, c, p);
    } else {
      assert DiffersFirstAt(a, c, q);
    }
  }

  /** Each row's key sorts strictly before the next row's key. */
  ghost predicate Ascending<V>(t: seq<(string, V)>)
  {
    forall i, j :: 0 <= i && j == i + 1 && j < |t| ==> Precedes(t[i].0, t[j].0)
  }

  /** In an ascending listing every earlier key sorts before every later one. */
  lemma {:induction false} AscendingOrdered<V>(t: seq<(string, V)>, i: int, j: int)
    requires Ascending(t)
    requires 0 <= i < j < |t|
    ensures Precedes(t[i].0, t[j].0)
    decreases j - i
  {
    if j > i + 1 {
      AscendingOrdered(t, i, j - 1);
      PrecedesTransitive(t[i].0, t[j - 1].0, t[j].0);
    }
  }

  lemma AscendingDistinct<V>(t: seq<(string, V)>)
    requires Ascending(t)
    ensures DistinctKeys(t)
  {
    forall i, j | 0 <= i < j < |t|
      ensures t[i].0 != t[j].0
    {
      AscendingOrdered(t, i, j);
      if t[i].0 == t[j].0 {
        PrecedesIrreflexive(t[i].0);
      }
    }
  }

  /** A key strictly between two neighbours of an ascending listing is not a key of it. */
  lemma NotBetween<V>(t: seq<(string, V)>, i: int, k: string)
    requires Ascending(t)
    requires 0 <= i && i + 1 < |t|
    requires Precedes(t[i].0, k) && Precedes(k, t[i + 1].0)
    ensures k !in KeysOf(t)
  {
    KeysOfIndex(t);
    forall j | 0 <= j < |t|
      ensures t[j].0 != k
    {
      if j < i {
        AscendingOrdered(t, j, i);
        PrecedesTransitive(t[j].0, t[i].0, k);
        PrecedesIrreflexive(k);
      } else if j == i {
        PrecedesIrreflexive(k);
      } else if j == i + 1 {
        PrecedesIrreflexive(k);
      } else {
        AscendingOrdered(t, i + 1, j);
        PrecedesTransitive(k, t[i + 1].0, t[j].0);
        PrecedesIrreflexive(k);
      }
    }
  }
}
