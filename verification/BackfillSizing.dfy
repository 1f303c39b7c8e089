/**
 How a backfill shrinks a chunk that proved too heavy, and how often it can.
 */
module BackfillSizing {
  import opened Options

  const CHUNK_SIZE_FLOOR: nat := 250

  /** Half of `current`, not below `floor`; None once `current` is at or below it. */
  function HalvedOrNone(current: nat, floor: nat): Option<nat> {
    if current <= floor then None
    else Some(if floor > current / 2 then floor else current / 2)
  }

  lemma HalvingShrinks(current: nat, floor: nat)
    ensures HalvedOrNone(current, floor).None? <==> current <= floor
    ensures HalvedOrNone(current, floor).Some? ==>
              floor <= HalvedOrNone(current, floor).value < current
  {
  }

  /** How many heavy chunks in a row a run of this chunk size survives. */
  function HalvingsLeft(size: nat, floor: nat): nat
    decreases size
  {
    match HalvedOrNone(size, floor)
    case None => 0
    case Some(next) => 1 + HalvingsLeft(next, floor)
  }

  function Pow2(k: nat): nat { if k == 0 then 1 else 2 * Pow2(k - 1) }

  /** `(floor + 1) * 2^k`, by doubling. */
  function Doubled(floor: nat, k: nat): nat { if k == 0 then floor + 1 else 2 * Doubled(floor, k - 1) }

  lemma {:induction false} DoubledIsPower(floor: nat, k: nat)
    ensures Doubled(floor, k) == (floor + 1) * Pow2(k) && Doubled(floor, k) > floor
  {
    if k > 0 { DoubledIsPower(floor, k - 1); }
  }

  lemma {:induction false} HalvingsByDoubling(size: nat, floor: nat, k: nat)
    ensures HalvingsLeft(size, floor) <= k <==> size < Doubled(floor, k)
    decreases k
  {
    DoubledIsPower(floor, k);
    if k > 0 && size > floor {
      DoubledIsPower(floor, k - 1);
      HalvingsByDoubling(HalvedOrNone(size, floor).value, floor, k - 1);
    }
  }

  /**
   The exact count: a run survives `k` halvings or fewer just when its size is
   below `(floor + 1) * 2^k`.
   */
  lemma HalvingsLeftExactly(size: nat, floor: nat, k: nat)
    ensures HalvingsLeft(size, floor) <= k <==> size < (floor + 1) * Pow2(k)
  {
    HalvingsByDoubling(size, floor, k);
    DoubledIsPower(floor, k);
  }

  /** No more halvings than the doublings that take the floor up to the starting size. */
  lemma HalvingsAtMostLog(size: nat, floor: nat, k: nat)
    requires size <= floor * Pow2(k)
    ensures HalvingsLeft(size, floor) <= k
  {
    HalvingsLeftExactly(size, floor, k);
    assert (floor + 1) * Pow2(k) == floor * Pow2(k) + Pow2(k);
    DoubledIsPower(0, k);
  }
}
