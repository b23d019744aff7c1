/** Id lists of the enrichment steps and their division into request batches. */
module Chunking {
  import opened Seqs

  /** `ids.slice(i, i + n)` for i = 0, n, 2n, ...: consecutive batches of `n` ids, the last one shorter. */
  function Chunks<T>(s: seq<T>, n: nat): seq<seq<T>>
    requires n > 0
    decreases |s|
  {
    if s == [] then []
    else if |s| <= n then [s]
    else [s[..n]] + Chunks(s[n..], n)
  }

  /** Every batch is non-empty and holds at most `n` ids. */
  lemma {:induction false} ChunksBounded<T>(s: seq<T>, n: nat)
    requires n > 0
    ensures forall c :: c in Chunks(s, n) ==> 0 < |c| <= n
    decreases |s|
  {
    if |s| > n {
      ChunksBounded(s[n..], n);
    }
  }

  /** The batches, concatenated in order, are the id list. */
  lemma {:induction false} ChunksConcat<T>(s: seq<T>, n: nat)
    requires n > 0
    ensures Concat(Chunks(s, n)) == s
    decreases |s|
  {
    if |s| > n {
      ChunksConcat(s[n..], n);
      assert Chunks(s, n)[1..] == Chunks(s[n..], n);
      assert s == s[..n] + s[n..];
    }
  }

  /** `N` ids make `ceil(N / n)` batches. */
  lemma {:induction false} ChunksCount<T>(s: seq<T>, n: nat)
    requires n > 0
    ensures |Chunks(s, n)| == (|s| + n - 1) / n
    decreases |s|
  {
    if s == [] {
      assert (n - 1) / n == 0;
    } else if |s| <= n {
      assert n <= |s| + n - 1 < 2 * n;
      DivBetween(|s| + n - 1, n, 1);
    } else {
      ChunksCount(s[n..], n);
      var m := |s| - n;
      DivShift(m + n - 1, n);
      assert |s| + n - 1 == (m + n - 1) + n;
    }
  }

  /** Division is determined by bounds: `q * n <= x < (q + 1) * n` gives `x / n == q`. */
  lemma DivBetween(x: nat, n: nat, q: nat)
    requires n > 0 && q * n <= x < (q + 1) * n
    ensures x / n == q
  {
    var d, r := x / n, x % n;
    assert x == d * n + r && 0 <= r < n;
    if d != q {
      var lo, hi := if d < q then d else q, if d < q then q else d;
      MulMono(lo + 1, hi, n);
      assert false;
    }
  }

  lemma MulMono(a: nat, b: nat, n: nat)
    requires a <= b
    ensures a * n <= b * n
  {
    assert b * n == a * n + (b - a) * n;
  }

  lemma DivShift(x: nat, n: nat)
    requires n > 0
    ensures (x + n) / n == x / n + 1
  {
    var q := x / n;
    assert q * n <= x < (q + 1) * n;
    assert (q + 1) * n <= x + n < (q + 2) * n;
    DivBetween(x + n, n, q + 1);
  }

  /** `filter((id): id is string => !!id)`: the ids that are present and not empty, in order. */
  function PresentIds(ids: seq<string>): (r: seq<string>)
    ensures |r| <= |ids|
    ensures forall x :: x in r <==> x in ids && x != ""
    ensures (forall i :: 0 <= i < |ids| ==> ids[i] != "") ==> r == ids
  {
    if ids == [] then []
    else if ids[0] == "" then PresentIds(ids[1..])
    else [ids[0]] + PresentIds(ids[1..])
  }

  /** The filter works id by id, in order: filtering two lists one after the other is filtering
      their concatenation, so repeated ids are kept and nothing is reordered. */
  lemma {:induction false} PresentIdsAppend(a: seq<string>, b: seq<string>)
    ensures PresentIds(a + b) == PresentIds(a) + PresentIds(b)
  {
    if a == [] {
      assert a + b == b;
    } else {
      assert (a + b)[0] == a[0];
      assert (a + b)[1..] == a[1..] + b;
      PresentIdsAppend(a[1..], b);
    }
  }

  predicate Distinct(s: seq<string>)
  {
    forall i, j :: 0 <= i < j < |s| ==> s[i] != s[j]
  }

  /** `Array.from(new Set(s))`: each value once, at the place it first occurs. */
  function Dedup(s: seq<string>): (r: seq<string>)
    ensures Distinct(r)
    ensures forall x :: x in r <==> x in s
    ensures |r| <= |s|
  {
    if s == [] then []
    else
      var d := Dedup(s[..|s| - 1]);
      assert forall x :: x in s <==> x in s[..|s| - 1] || x == s[|s| - 1] by {
        assert s == s[..|s| - 1] + [s[|s| - 1]];
      }
      if s[|s| - 1] in d then d else d + [s[|s| - 1]]
  }

  /** Deduplicating a list whose values are already distinct leaves it unchanged. */
  lemma {:induction false} DedupDistinct(s: seq<string>)
    requires Distinct(s)
    ensures Dedup(s) == s
  {
    if s != [] {
      var p := s[..|s| - 1];
      assert Distinct(p);
      DedupDistinct(p);
      assert s[|s| - 1] !in p;
      assert s == p + [s[|s| - 1]];
    }
  }
}
