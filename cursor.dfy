/** The sample cursor of the data layers: which entry of the index listing the next
    `reshape` reads, how `forward` moves it in sequential mode, and when the layer runs
    in random mode at all. */
module Cursor {

  /** `idx += 1; if idx == len(indices): idx = 0` over a listing of `n` entries. */
  function Next(idx: nat, n: nat): (r: nat)
    ensures idx < n ==> r < n
    ensures r == 0 <==> idx + 1 == n
    ensures r != 0 ==> r == idx + 1
  {
    if idx + 1 == n then 0 else idx + 1
  }

  /** The cursor after `k` sequential steps from `idx`. */
  function After(idx: nat, n: nat, k: nat): nat
    decreases k
  {
    if k == 0 then idx else After(Next(idx, n), n, k - 1)
  }

  /** The listing positions read by `k` rounds of reshape-then-forward from `idx`. */
  function Visited(idx: nat, n: nat, k: nat): seq<nat>
    decreases k
  {
    if k == 0 then [] else [idx] + Visited(Next(idx, n), n, k - 1)
  }

  /** Round `m` reads the position the cursor has after `m` steps. */
  lemma {:induction false} VisitedAt(idx: nat, n: nat, k: nat)
    ensures |Visited(idx, n, k)| == k
    ensures forall m :: 0 <= m < k ==> Visited(idx, n, k)[m] == After(idx, n, m)
    decreases k
  {
    if k > 0 {
      VisitedAt(Next(idx, n), n, k - 1);
      forall m | 0 < m < k
        ensures Visited(idx, n, k)[m] == After(idx, n, m)
      {
        assert Visited(idx, n, k)[m] == Visited(Next(idx, n), n, k - 1)[m - 1];
      }
    }
  }

  /** Stepping `a + b` times is stepping `a` times and then `b` times. */
  lemma {:induction false} AfterAdd(idx: nat, n: nat, a: nat, b: nat)
    ensures After(idx, n, a + b) == After(After(idx, n, a), n, b)
    decreases a
  {
    if a > 0 {
      AfterAdd(Next(idx, n), n, a - 1, b);
    }
  }

  /** Within one pass the cursor moves forward by `k` and wraps around the end once. */
  lemma {:induction false} AfterWithinPass(idx: nat, n: nat, k: nat)
    requires idx < n && k <= n
    ensures After(idx, n, k) == if idx + k < n then idx + k else idx + k - n
    decreases k
  {
    if k > 0 {
      AfterWithinPass(Next(idx, n), n, k - 1);
    }
  }

  /** Sequential mode never leaves the listing. */
  lemma {:induction false} AfterInRange(idx: nat, n: nat, k: nat)
    requires idx < n
    ensures After(idx, n, k) < n
    decreases k
  {
    if k > 0 {
      AfterInRange(Next(idx, n), n, k - 1);
    }
  }

  /** After `n` steps the cursor is back where it started, so the walk repeats with period `n`. */
  lemma Periodic(idx: nat, n: nat, k: nat)
    requires idx < n
    ensures After(idx, n, n) == idx
    ensures After(idx, n, k + n) == After(idx, n, k)
  {
    AfterWithinPass(idx, n, n);
    AfterAdd(idx, n, n, k);
  }

  /** From any start, `n` rounds read every entry of the listing exactly once and end
      where they began. */
  lemma EpochCoversListing(idx: nat, n: nat)
    requires idx < n
    ensures After(idx, n, n) == idx
    ensures |Visited(idx, n, n)| == n
    ensures forall p :: 0 <= p < n ==> p in Visited(idx, n, n)
    ensures forall a, b :: 0 <= a < b < n ==> Visited(idx, n, n)[a] != Visited(idx, n, n)[b]
  {
    var w := Visited(idx, n, n);
    VisitedAt(idx, n, n);
    AfterWithinPass(idx, n, n);
    forall m | 0 <= m < n
      ensures w[m] == if idx + m < n then idx + m else idx + m - n
    {
      AfterWithinPass(idx, n, m);
    }
    forall p | 0 <= p < n
      ensures p in w
    {
      var m := if idx <= p then p - idx else p + n - idx;
      assert w[m] == p;
    }
  }

  /** Starting from 0, as `setup` does in sequential mode, the rounds read the
      listing exactly in order and the cursor is 0 again afterwards. */
  lemma EpochFromZero(n: nat)
    ensures After(0, n, n) == 0
    ensures |Visited(0, n, n)| == n
    ensures forall m :: 0 <= m < n ==> Visited(0, n, n)[m] == m
  {
    VisitedAt(0, n, n);
    if n > 0 {
      AfterWithinPass(0, n, n);
      forall m | 0 <= m < n
        ensures Visited(0, n, n)[m] == m
      {
        AfterWithinPass(0, n, m);
      }
    }
  }

  /** `pattern` occurs in `text` starting at position `i`. */
  predicate OccursAt(text: string, pattern: string, i: nat) {
    i + |pattern| <= |text| && text[i..i + |pattern|] == pattern
  }

  /** Python's `pattern in text` on strings, searched from the left. */
  function Contains(text: string, pattern: string): bool
    decreases |text|
  {
    if |text| < |pattern| then false
    else text[..|pattern|] == pattern || Contains(text[1..], pattern)
  }

  /** The search answers exactly whether the pattern occurs somewhere. */
  lemma {:induction false} ContainsOccurs(text: string, pattern: string)
    ensures Contains(text, pattern) <==> exists i: nat :: OccursAt(text, pattern, i)
    decreases |text|
  {
    if |text| < |pattern| {
      assert forall i: nat :: !OccursAt(text, pattern, i);
    } else {
      if text[..|pattern|] == pattern {
        assert OccursAt(text, pattern, 0);
      } else {
        ContainsOccurs(text[1..], pattern);
        forall i: nat | OccursAt(text, pattern, i)
          ensures OccursAt(text[1..], pattern, i - 1)
        {
          assert i != 0;
          assert text[1..][i - 1..i - 1 + |pattern|] == text[i..i + |pattern|];
        }
        forall i: nat | OccursAt(text[1..], pattern, i)
          ensures OccursAt(text, pattern, i + 1)
        {
          assert text[1..][i..i + |pattern|] == text[i + 1..i + 1 + |pattern|];
        }
      }
    }
  }

  /** Whether the layer runs in random mode: asked for, and the split name contains
      "train". Any other split walks the listing in order. */
  function RandomMode(split: string, randomize: bool): (r: bool)
    ensures r <==> randomize && exists i: nat :: OccursAt(split, "train", i)
  {
    ContainsOccurs(split, "train");
    randomize && Contains(split, "train")
  }

  /** The usual split names: only names containing "train" can randomise. */
  lemma SplitNames()
    ensures RandomMode("train", true)
    ensures RandomMode("trainval", true)
    ensures !RandomMode("val", true)
    ensures !RandomMode("test", true)
    ensures !RandomMode("train", false)
  {
  }
}
