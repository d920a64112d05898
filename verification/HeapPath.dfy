/**
 The route from the root of a complete binary tree to its slot `n`.

 Slots are numbered level by level from 1, so the children of slot `i` are `2 * i` and `2 * i + 1`.
 The bits of `n` below its highest one, read from the top, say at each level whether to go right.
 A mask is a power of two, or 0 at the end of the route; shifting it right is halving it.
 */
module HeapPath {

  ghost predicate IsPow2(p: nat) {
    p == 1 || (p > 1 && p % 2 == 0 && IsPow2(p / 2))
  }

  ghost predicate IsMask(mask: nat) {
    mask == 0 || IsPow2(mask)
  }

  /** The smallest power of two that is not below `n`. */
  function BitCeil(n: nat): (p: nat)
    ensures IsPow2(p)
    ensures n <= p
    ensures n > 1 ==> p < 2 * n
  {
    if n <= 1 then 1 else 2 * BitCeil((n + 1) / 2)
  }

  /** The bit of `n` that decides the first step below the root, or 0 when `n` is the root. */
  function PathBitMask(n: nat): nat {
    BitCeil(n + 1) / 4
  }

  /** The bits of `n` from the position of the bit in `mask` upwards. */
  function BitsFrom(n: nat, mask: nat): nat
    requires mask > 0
  {
    if mask == 1 then n else BitsFrom(n / 2, mask / 2)
  }

  /** `mask & path` is not zero. */
  predicate GoRight(mask: nat, path: nat)
    requires mask > 0
  {
    BitsFrom(path, mask) % 2 == 1
  }

  /** The slot that has been reached when the bit in `mask` is the next one to follow. */
  ghost function Prefix(n: nat, mask: nat): nat {
    if mask == 0 then n else BitsFrom(n, mask) / 2
  }

  lemma {:induction false} BitsFromHalf(n: nat, mask: nat)
    requires mask > 0
    ensures BitsFrom(n / 2, mask) == BitsFrom(n, mask) / 2
    ensures BitsFrom(n, mask) <= n
    decreases mask
  {
    if mask > 1 {
      BitsFromHalf(n / 2, mask / 2);
    }
  }

  /** Following the bit at `mask` moves from a slot to the child it names, and ends at `n`. */
  lemma PathStep(n: nat, mask: nat)
    requires mask > 0 && IsPow2(mask)
    ensures IsMask(mask / 2)
    ensures Prefix(n, mask / 2) == 2 * Prefix(n, mask) + (if GoRight(mask, n) then 1 else 0)
    ensures 2 * Prefix(n, mask) <= n
    ensures if mask / 2 == 0 then Prefix(n, mask / 2) == n else 2 * Prefix(n, mask / 2) <= n
  {
    BitsFromHalf(n, mask);
    if mask > 1 {
      assert BitsFrom(n, mask) == BitsFrom(n / 2, mask / 2);
      BitsFromHalf(n, mask / 2);
    }
  }

  /** For a number between `p` and `2 * p`, only the highest bit lies at `p` or above. */
  lemma {:induction false} TopBit(n: nat, p: nat)
    requires IsPow2(p) && p <= n < 2 * p
    ensures BitsFrom(n, p) == 1
    decreases p
  {
    if p > 1 {
      TopBit(n / 2, p / 2);
    }
  }

  /** The route starts at the root. */
  lemma PathStart(n: nat)
    requires n >= 1
    ensures IsMask(PathBitMask(n))
    ensures Prefix(n, PathBitMask(n)) == 1
  {
    var p := BitCeil(n + 1);
    assert p > 1 && IsPow2(p / 2);
    if p > 2 {
      assert IsPow2(p / 2 / 2) && p / 4 == p / 2 / 2;
      TopBit(n, p / 2);
      assert BitsFrom(n, p / 2) == BitsFrom(n / 2, p / 4);
      BitsFromHalf(n, p / 4);
    }
  }

  /** Walks down from `slot` as the loops of the heap do. */
  function Descend(slot: nat, mask: nat, path: nat): nat
    decreases mask
  {
    if mask == 0 then slot
    else Descend(2 * slot + (if GoRight(mask, path) then 1 else 0), mask / 2, path)
  }

  lemma {:induction false} DescendReaches(mask: nat, path: nat)
    requires IsMask(mask)
    ensures Descend(Prefix(path, mask), mask, path) == path
    decreases mask
  {
    if mask != 0 {
      PathStep(path, mask);
      DescendReaches(mask / 2, path);
    }
  }

  /** The bits of `n` lead from the root to slot `n`, for every size of heap. */
  lemma BitsLeadToSlot(n: nat)
    requires n >= 1
    ensures Descend(1, PathBitMask(n), n) == n
  {
    PathStart(n);
    DescendReaches(PathBitMask(n), n);
  }
}
