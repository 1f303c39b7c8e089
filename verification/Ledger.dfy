/**
 A finite history of value movements, and the from-scratch balance the
 incremental rollups stand in for.

 `K` is what a balance is kept per: an address for native ether, a
 (Safe, token) pair for ERC-20.
 */
module Ledger {
  import opened Options

  /** One transfer row: `value` leaves `from` and reaches `to` in `block`. */
  datatype Movement<+K> = Movement(block: nat, to: Option<K>, from: Option<K>, value: nat)

  function Effect<K(==)>(m: Movement<K>, k: K): int {
    (if m.to == Some(k) then m.value else 0) - (if m.from == Some(k) then m.value else 0)
  }

  /** Net amount `k` received over the block window `(lo, hi]`. */
  function NetFlow<K(==)>(h: seq<Movement<K>>, k: K, lo: int, hi: int): int {
    if h == [] then 0
    else (if lo < h[0].block <= hi then Effect(h[0], k) else 0) + NetFlow(h[1..], k, lo, hi)
  }

  /** The balance recomputed from scratch over every block up to and including `b`. */
  function BalanceAt<K(==)>(h: seq<Movement<K>>, k: K, b: int): int {
    NetFlow(h, k, -1, b)
  }

  function Parties<K>(m: Movement<K>): set<K> {
    (if m.to.Some? then {m.to.value} else {}) + (if m.from.Some? then {m.from.value} else {})
  }

  /** Every key with at least one movement in `(lo, hi]`: the groups of a GROUP BY. */
  function Touched<K(==)>(h: seq<Movement<K>>, lo: int, hi: int): set<K> {
    if h == [] then {}
    else (if lo < h[0].block <= hi then Parties(h[0]) else {}) + Touched(h[1..], lo, hi)
  }

  /** The part of the history at or below block `b`. */
  function Cut<K>(h: seq<Movement<K>>, b: int): seq<Movement<K>> {
    if h == [] then []
    else if h[0].block <= b then [h[0]] + Cut(h[1..], b)
    else Cut(h[1..], b)
  }

  /** Every block of `(lo, hi]` is counted once when the window is cut at `mid`. */
  lemma {:induction false} NetFlowSplits<K>(h: seq<Movement<K>>, k: K, lo: int, mid: int, hi: int)
    requires lo <= mid <= hi
    ensures NetFlow(h, k, lo, hi) == NetFlow(h, k, lo, mid) + NetFlow(h, k, mid, hi)
  {
    if h != [] { NetFlowSplits(h[1..], k, lo, mid, hi); }
  }

  lemma {:induction false} UntouchedHasNoFlow<K>(h: seq<Movement<K>>, k: K, lo: int, hi: int)
    requires k !in Touched(h, lo, hi)
    ensures NetFlow(h, k, lo, hi) == 0
  {
    if h != [] { UntouchedHasNoFlow(h[1..], k, lo, hi); }
  }

  lemma {:induction false} TouchedGrows<K>(h: seq<Movement<K>>, lo: int, hi: int, lo': int, hi': int)
    requires lo' <= lo && hi <= hi'
    ensures Touched(h, lo, hi) <= Touched(h, lo', hi')
  {
    if h != [] { TouchedGrows(h[1..], lo, hi, lo', hi'); }
  }

  lemma {:induction false} EmptyWindow<K>(h: seq<Movement<K>>, k: K, lo: int, hi: int)
    requires hi <= lo
    ensures NetFlow(h, k, lo, hi) == 0 && Touched(h, lo, hi) == {}
  {
    if h != [] { EmptyWindow(h[1..], k, lo, hi); }
  }

  lemma {:induction false} FlowOfCut<K>(h: seq<Movement<K>>, k: K, lo: int, hi: int, b: int)
    requires hi <= b
    ensures NetFlow(Cut(h, b), k, lo, hi) == NetFlow(h, k, lo, hi)
  {
    if h != [] { FlowOfCut(h[1..], k, lo, hi, b); }
  }

  lemma {:induction false} CutOfCut<K>(h: seq<Movement<K>>, b: int, b': int)
    requires b <= b'
    ensures Cut(Cut(h, b'), b) == Cut(h, b)
  {
    if h != [] { CutOfCut(h[1..], b, b'); }
  }

  /** Two histories that agree up to `b` give every key the same flow below `b`. */
  lemma FrozenFlow<K>(h: seq<Movement<K>>, h': seq<Movement<K>>, k: K, lo: int, hi: int, b: int)
    requires Cut(h, b) == Cut(h', b) && hi <= b
    ensures NetFlow(h, k, lo, hi) == NetFlow(h', k, lo, hi)
  {
    FlowOfCut(h, k, lo, hi, b);
    FlowOfCut(h', k, lo, hi, b);
  }

  /** A history frozen up to `b'` is frozen up to every lower block. */
  lemma FrozenBelow<K>(h: seq<Movement<K>>, h': seq<Movement<K>>, b: int, b': int)
    requires Cut(h, b') == Cut(h', b') && b <= b'
    ensures Cut(h, b) == Cut(h', b)
  {
    CutOfCut(h, b, b');
    CutOfCut(h', b, b');
  }

  /** `h` with one more payment to `k`. */
  function Paying<K>(value: nat, k: K, block: nat, h: seq<Movement<K>>): seq<Movement<K>> {
    [Movement(block, Some(k), None, value)] + h
  }

  /** `h` with one more payment by `k`. */
  function Spending<K>(value: nat, k: K, block: nat, h: seq<Movement<K>>): seq<Movement<K>> {
    [Movement(block, None, Some(k), value)] + h
  }

  lemma OnePayment<K>(value: nat, p: K, block: nat, h: seq<Movement<K>>, k: K, hi: nat)
    ensures BalanceAt(Paying(value, p, block, h), k, hi)
         == BalanceAt(h, k, hi) + (if k == p && block <= hi then value else 0)
    ensures BalanceAt(Spending(value, p, block, h), k, hi)
         == BalanceAt(h, k, hi) - (if k == p && block <= hi then value else 0)
  {
    assert Paying(value, p, block, h)[1..] == h && Spending(value, p, block, h)[1..] == h;
  }
}
