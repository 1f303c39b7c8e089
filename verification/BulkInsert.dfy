/**
 Storing indexed internal transactions: one batch when nothing conflicts, otherwise
 one by one, decoded ones first.
 */
module BulkInsert {
  import opened Options

  datatype Key = Key(txHash: nat, trace: seq<nat>)

  /** An InternalTx instance; `id` is its identity in memory, and the row it becomes. */
  datatype Tx = Tx(id: nat, key: Key)

  type Rows = map<Key, Tx>

  // --------------------------------------------------------- insert one by one, in order

  function Insert(rows: Rows, x: Tx): Rows { if x.key in rows then rows else rows[x.key := x] }

  function InsertAll(rows: Rows, xs: seq<Tx>): Rows {
    if xs == [] then rows else Insert(InsertAll(rows, xs[..|xs| - 1]), xs[|xs| - 1])
  }

  /** The insertions of `xs` that go through. */
  function Accepted(rows: Rows, xs: seq<Tx>): seq<Tx> {
    if xs == [] then []
    else
      var before, x := xs[..|xs| - 1], xs[|xs| - 1];
      Accepted(rows, before) + (if x.key in InsertAll(rows, before) then [] else [x])
  }

  /** The first of `xs` with key `k`. */
  function First(xs: seq<Tx>, k: Key): Option<Tx> {
    if xs == [] then None else if xs[0].key == k then Some(xs[0]) else First(xs[1..], k)
  }

  lemma {:induction false} FirstOfAppend(xs: seq<Tx>, ys: seq<Tx>, k: Key)
    ensures First(xs + ys, k) == if First(xs, k).Some? then First(xs, k) else First(ys, k)
  {
    if xs != [] {
      FirstOfAppend(xs[1..], ys, k);
      assert (xs + ys)[1..] == xs[1..] + ys;
    } else {
      assert xs + ys == ys;
    }
  }

  lemma {:induction false} FirstIsAmong(xs: seq<Tx>, k: Key)
    ensures First(xs, k).Some? ==> First(xs, k).value in xs && First(xs, k).value.key == k
    ensures First(xs, k).None? ==> forall x :: x in xs ==> x.key != k
  {
    if xs != [] {
      FirstIsAmong(xs[1..], k);
      assert xs == [xs[0]] + xs[1..];
    }
  }

  /** What is stored in the end: the old row, or else the first instance offered for the key. */
  function Winner(rows: Rows, xs: seq<Tx>, k: Key): Option<Tx> {
    if k in rows then Some(rows[k]) else First(xs, k)
  }

  function Lookup(rows: Rows, k: Key): Option<Tx> { if k in rows then Some(rows[k]) else None }

  lemma {:induction false} FirstOfferWins(rows: Rows, xs: seq<Tx>, k: Key)
    ensures Lookup(InsertAll(rows, xs), k) == Winner(rows, xs, k)
  {
    if xs != [] {
      var before, x := xs[..|xs| - 1], xs[|xs| - 1];
      FirstOfferWins(rows, before, k);
      FirstOfferWins(rows, before, x.key);
      FirstOfAppend(before, [x], k);
      assert xs == before + [x];
      assert First([x], k) == if x.key == k then Some(x) else None;
    }
  }

  lemma OneMoreOffer(rows: Rows, xs: seq<Tx>, x: Tx)
    ensures InsertAll(rows, xs + [x]) == Insert(InsertAll(rows, xs), x)
    ensures Accepted(rows, xs + [x]) == Accepted(rows, xs) + (if x.key in InsertAll(rows, xs) then [] else [x])
  {
    assert (xs + [x])[..|xs|] == xs;
  }

  lemma {:induction false} InsertAppends(rows: Rows, xs: seq<Tx>, ys: seq<Tx>)
    ensures InsertAll(rows, xs + ys) == InsertAll(InsertAll(rows, xs), ys)
    decreases |ys|
  {
    if ys == [] {
      assert xs + ys == xs;
    } else {
      var before, y := ys[..|ys| - 1], ys[|ys| - 1];
      InsertAppends(rows, xs, before);
      OneMoreOffer(rows, xs + before, y);
      assert xs + ys == (xs + before) + [y];
    }
  }

  lemma AcceptedOneMore(rows: Rows, xs: seq<Tx>, ys: seq<Tx>, y: Tx)
    requires Accepted(rows, xs + ys) == Accepted(rows, xs) + Accepted(InsertAll(rows, xs), ys)
    ensures Accepted(rows, xs + ys + [y]) == Accepted(rows, xs) + Accepted(InsertAll(rows, xs), ys + [y])
  {
    var mid := InsertAll(rows, xs);
    InsertAppends(rows, xs, ys);
    OneMoreOffer(rows, xs + ys, y);
    OneMoreOffer(mid, ys, y);
  }

  lemma {:induction false} AcceptedAppends(rows: Rows, xs: seq<Tx>, ys: seq<Tx>)
    ensures Accepted(rows, xs + ys) == Accepted(rows, xs) + Accepted(InsertAll(rows, xs), ys)
    decreases |ys|
  {
    if ys == [] {
      assert xs + ys == xs && Accepted(InsertAll(rows, xs), ys) == [];
    } else {
      var before, y := ys[..|ys| - 1], ys[|ys| - 1];
      assert xs + ys == xs + before + [y] && ys == before + [y];
      AcceptedAppends(rows, xs, before);
      AcceptedOneMore(rows, xs, before, y);
    }
  }

  predicate HasRow(rows: Rows, x: Tx) { x.key in rows && rows[x.key] == x }

  /** `stored` lists exactly the rows that are in `after` and were not in `before`, each once. */
  ghost predicate AreTheNewRows(stored: seq<Tx>, before: Rows, after: Rows) {
    && (forall x :: x in stored ==> x.key !in before && HasRow(after, x))
    && (forall k :: k in after && k !in before ==> after[k] in stored)
    && (forall k :: k in before ==> k in after && after[k] == before[k])
    && |after| == |before| + |stored|
  }

  lemma OneRowMore(rows: Rows, x: Tx)
    requires x.key !in rows
    ensures |Insert(rows, x)| == |rows| + 1 && Insert(rows, x).Keys == rows.Keys + {x.key}
  {
    var after := Insert(rows, x);
    assert after.Keys == rows.Keys + {x.key};
    assert |after| == |after.Keys| && |rows| == |rows.Keys|;
  }

  lemma NewRowJoins(stored: seq<Tx>, before: Rows, mid: Rows, x: Tx)
    requires AreTheNewRows(stored, before, mid) && x.key !in mid
    ensures AreTheNewRows(stored + [x], before, Insert(mid, x))
  {
    OneRowMore(mid, x);
    var after, longer := Insert(mid, x), stored + [x];
    assert longer[|stored|] == x;
    forall y | y in longer
      ensures y.key !in before && HasRow(after, y)
    {
      if y != x { assert y in stored && HasRow(mid, y); }
    }
    forall k | k in after && k !in before
      ensures after[k] in longer
    {
      if k != x.key { assert mid[k] in stored; }
    }
  }

  /** The accepted instances are the new rows, each once. */
  lemma {:induction false} AcceptedAreTheNewRows(rows: Rows, xs: seq<Tx>)
    ensures AreTheNewRows(Accepted(rows, xs), rows, InsertAll(rows, xs))
    ensures forall x :: x in Accepted(rows, xs) ==> x in xs
  {
    if xs != [] {
      var before, x := xs[..|xs| - 1], xs[|xs| - 1];
      AcceptedAreTheNewRows(rows, before);
      assert xs == before + [x];
      OneMoreOffer(rows, before, x);
      if x.key !in InsertAll(rows, before) {
        NewRowJoins(Accepted(rows, before), rows, InsertAll(rows, before), x);
      }
    }
  }

  lemma NotStoredYet(rows: Rows, xs: seq<Tx>, x: Tx)
    requires x.key !in InsertAll(rows, xs)
    ensures x !in Accepted(rows, xs)
  {
    AcceptedAreTheNewRows(rows, xs);
  }

  // ------------------------------------------------------------------------ the batch

  predicate DistinctKeys(xs: seq<Tx>) { forall i, j :: 0 <= i < j < |xs| ==> xs[i].key != xs[j].key }

  /** No unique constraint is hit: the batch goes through as a whole. */
  predicate NoConflict(rows: Rows, txs: seq<Tx>, parents: seq<Tx>) {
    && DistinctKeys(txs) && DistinctKeys(parents)
    && rows.Keys !! Keys(txs)
  }

  function Keys(xs: seq<Tx>): set<Key> { set x | x in xs :: x.key }

  lemma {:induction false} KeysAfter(rows: Rows, xs: seq<Tx>)
    ensures InsertAll(rows, xs).Keys == rows.Keys + Keys(xs)
  {
    if xs != [] {
      var before, x := xs[..|xs| - 1], xs[|xs| - 1];
      KeysAfter(rows, before);
      assert xs == before + [x];
      assert Keys(xs) == Keys(before) + {x.key};
    } else {
      assert Keys(xs) == {};
    }
  }

  lemma {:induction false} DistinctAllAccepted(rows: Rows, xs: seq<Tx>)
    requires DistinctKeys(xs) && rows.Keys !! Keys(xs)
    ensures Accepted(rows, xs) == xs
  {
    if xs != [] {
      var before, x := xs[..|xs| - 1], xs[|xs| - 1];
      assert xs == before + [x] && x in xs;
      assert Keys(before) <= Keys(xs) && x.key !in Keys(before) && x.key in Keys(xs);
      DistinctAllAccepted(rows, before);
      KeysAfter(rows, before);
    }
  }

  /**
   When the batch goes through, going one by one would have stored the same rows and
   accepted each instance: the fast path is an optimisation only.
   */
  lemma BatchIsOneByOne(rows: Rows, txs: seq<Tx>, parents: seq<Tx>)
    requires NoConflict(rows, txs, parents) && forall p :: p in parents ==> p in txs
    ensures InsertAll(rows, txs) == InsertAll(rows, parents + txs)
    ensures forall x :: x in Accepted(rows, parents + txs) <==> x in txs
    ensures |Accepted(rows, parents + txs)| == |txs|
  {
    DistinctAllAccepted(rows, txs);
    forall k
      ensures Lookup(InsertAll(rows, txs), k) == Lookup(InsertAll(rows, parents + txs), k)
    {
      FirstOfferWins(rows, txs, k);
      FirstOfferWins(rows, parents + txs, k);
      FirstOfAppend(parents, txs, k);
      FirstIsAmong(parents, k);
      FirstIsAmong(txs, k);
    }
    var one, batch := InsertAll(rows, parents + txs), InsertAll(rows, txs);
    SameLookups(batch, one);
    AcceptedAreTheNewRows(rows, parents + txs);
    AcceptedAreTheNewRows(rows, txs);
    forall x | x in txs
      ensures x in Accepted(rows, parents + txs)
    {
      assert x in Accepted(rows, txs);
      assert x.key !in rows && HasRow(one, x);
    }
  }

  lemma SameLookups(a: Rows, b: Rows)
    requires forall k :: Lookup(a, k) == Lookup(b, k)
    ensures a == b
  {
    assert forall k :: k in a <==> Lookup(a, k).Some?;
    assert forall k :: k in b <==> Lookup(b, k).Some?;
    assert forall k :: k in a ==> k in b && Lookup(a, k) == Lookup(b, k);
  }

  /**
   Which of several instances of a new key is stored: the first in the list, except
   that a decoded one is tried before all others. So "the first occurrence wins"
   exactly when no later instance of a new key is the first decoded one.
   */
  lemma FirstOccurrenceWinsExactlyWhen(rows: Rows, txs: seq<Tx>, parents: seq<Tx>)
    ensures InsertAll(rows, parents + txs) == InsertAll(rows, txs) <==>
              forall p :: p in parents && p.key !in rows && First(parents, p.key) == Some(p) ==>
                First(txs, p.key) == Some(p)
  {
    var one, plain := InsertAll(rows, parents + txs), InsertAll(rows, txs);
    forall k
      ensures Lookup(one, k) == Lookup(plain, k) <==>
                (k !in rows && First(parents, k).Some? ==> First(txs, k) == First(parents, k))
    {
      FirstOfferWins(rows, txs, k);
      FirstOfferWins(rows, parents + txs, k);
      FirstOfAppend(parents, txs, k);
    }
    if forall p :: p in parents && p.key !in rows && First(parents, p.key) == Some(p) ==> First(txs, p.key) == Some(p) {
      forall k
        ensures Lookup(one, k) == Lookup(plain, k)
      {
        FirstIsAmong(parents, k);
      }
      SameLookups(one, plain);
    }
    if one == plain {
      forall p | p in parents && p.key !in rows && First(parents, p.key) == Some(p)
        ensures First(txs, p.key) == Some(p)
      {
        assert Lookup(one, p.key) == Lookup(plain, p.key);
      }
    }
  }

  /** A plain instance first in the list, and a decoded one of the same key after it. */
  const PLAIN: Tx := Tx(0, Key(1, []))
  const DECODED: Tx := Tx(1, Key(1, []))

  lemma DecodedInstanceWins()
    ensures First([PLAIN, DECODED], PLAIN.key) == Some(PLAIN)
    ensures InsertAll(map[], [DECODED] + [PLAIN, DECODED]) == map[PLAIN.key := DECODED]
    ensures InsertAll(map[], [PLAIN, DECODED]) == map[PLAIN.key := PLAIN]
  {
    forall k
      ensures Lookup(InsertAll(map[], [DECODED] + [PLAIN, DECODED]), k) == Lookup(map[PLAIN.key := DECODED], k)
      ensures Lookup(InsertAll(map[], [PLAIN, DECODED]), k) == Lookup(map[PLAIN.key := PLAIN], k)
    {
      FirstOfferWins(map[], [DECODED] + [PLAIN, DECODED], k);
      FirstOfferWins(map[], [PLAIN, DECODED], k);
      FirstIsAmong([PLAIN, DECODED], k);
      FirstIsAmong([DECODED] + [PLAIN, DECODED], k);
    }
    SameLookups(InsertAll(map[], [DECODED] + [PLAIN, DECODED]), map[PLAIN.key := DECODED]);
    SameLookups(InsertAll(map[], [PLAIN, DECODED]), map[PLAIN.key := PLAIN]);
  }

  // ------------------------------------------------------------------- the code itself

  /** list.remove: drop the first occurrence. */
  function Without(xs: seq<Tx>, x: Tx): seq<Tx> {
    if xs == [] then [] else if xs[0] == x then xs[1..] else [xs[0]] + Without(xs[1..], x)
  }

  lemma {:induction false} WithoutDropsOne(xs: seq<Tx>, x: Tx)
    requires x in xs
    ensures multiset(Without(xs, x)) == multiset(xs) - multiset{x}
  {
    assert xs == [xs[0]] + xs[1..];
    if xs[0] != x {
      WithoutDropsOne(xs[1..], x);
      assert x in multiset(xs[1..]);
    }
  }

  lemma {:induction false} FirstOfWithout(xs: seq<Tx>, x: Tx, k: Key)
    requires x.key != k
    ensures First(Without(xs, x), k) == First(xs, k)
  {
    if xs != [] && xs[0] != x { FirstOfWithout(xs[1..], x, k); }
  }

  /** Instances already inserted need not be offered again. */
  lemma InsertRest(rows: Rows, parents: seq<Tx>, left: seq<Tx>, txs: seq<Tx>)
    requires forall k :: k !in InsertAll(rows, parents) ==> First(left, k) == First(txs, k)
    ensures InsertAll(rows, parents + left) == InsertAll(rows, parents + txs)
  {
    InsertAppends(rows, parents, left);
    InsertAppends(rows, parents, txs);
    var mid := InsertAll(rows, parents);
    forall k
      ensures Lookup(InsertAll(mid, left), k) == Lookup(InsertAll(mid, txs), k)
    {
      FirstOfferWins(mid, left, k);
      FirstOfferWins(mid, txs, k);
    }
    SameLookups(InsertAll(mid, left), InsertAll(mid, txs));
  }

  function Members(xs: seq<Tx>): set<Tx> { set x | x in xs }

  /** `stored` and `left` share out the caller's list, and `left` still has the first offers of the keys to come. */
  ghost predicate SharedOut(rows: Rows, txs: seq<Tx>, stored: seq<Tx>, left: seq<Tx>) {
    && multiset(left) + multiset(stored) == multiset(txs)
    && forall k :: k !in rows ==> First(left, k) == First(txs, k)
  }

  lemma RemoveKeepsSharing(rows: Rows, txs: seq<Tx>, stored: seq<Tx>, left: seq<Tx>, x: Tx)
    requires SharedOut(rows, txs, stored, left) && x in txs && x !in stored
    ensures x in left && SharedOut(Insert(rows, x), txs, stored + [x], Without(left, x))
  {
    assert x in multiset(txs) && x !in multiset(stored);
    WithoutDropsOne(left, x);
    forall k | k !in Insert(rows, x)
      ensures First(Without(left, x), k) == First(txs, k)
    {
      FirstOfWithout(left, x, k);
    }
  }

  /** After `n` of the decoded instances: the rows, what was stored, and what the list still holds. */
  ghost predicate Halfway(before: Rows, txs: seq<Tx>, parents: seq<Tx>, n: nat, rows: Rows, stored: seq<Tx>,
                          left: seq<Tx>) {
    && n <= |parents|
    && rows == InsertAll(before, parents[..n]) && stored == Accepted(before, parents[..n])
    && SharedOut(rows, txs, stored, left)
  }

  lemma NoneOffered(rows: Rows, txs: seq<Tx>, parents: seq<Tx>)
    ensures Halfway(rows, txs, parents, 0, rows, [], txs)
  {
    assert parents[..0] == [];
  }

  lemma SaveOneDecoded(before: Rows, txs: seq<Tx>, parents: seq<Tx>, n: nat, rows: Rows,
                                          stored: seq<Tx>, left: seq<Tx>)
    requires Halfway(before, txs, parents, n, rows, stored, left) && n < |parents| && parents[n] in txs
    ensures var x := parents[n];
            if x.key in rows then Halfway(before, txs, parents, n + 1, rows, stored, left)
            else Halfway(before, txs, parents, n + 1, Insert(rows, x), stored + [x], Without(left, x))
                 && Members(stored + [x]) == Members(stored) + {x}
  {
    var offered, x := parents[..n], parents[n];
    assert parents[..n + 1] == offered + [x];
    OneMoreOffer(before, offered, x);
    if x.key !in rows {
      NotStoredYet(before, offered, x);
      RemoveKeepsSharing(rows, txs, stored, left, x);
    }
  }

  lemma AllOffered(before: Rows, txs: seq<Tx>, parents: seq<Tx>, rows: Rows, stored: seq<Tx>,
                                      left: seq<Tx>)
    requires Halfway(before, txs, parents, |parents|, rows, stored, left)
    ensures rows == InsertAll(before, parents) && stored == Accepted(before, parents)
    ensures SharedOut(rows, txs, stored, left)
  {
    assert parents[..|parents|] == parents;
  }

  lemma LeftIsFromTheList(rows: Rows, txs: seq<Tx>, stored: seq<Tx>, left: seq<Tx>)
    requires SharedOut(rows, txs, stored, left)
    ensures forall x :: x in left ==> x in txs
  {
    forall x | x in left
      ensures x in txs
    {
      assert x in multiset(left);
      assert x in multiset(txs);
    }
  }

  /** The two tables; `decoded` holds the internal transactions that have a decoded row. */
  class Tables {
    var rows: Rows
    var decoded: set<Tx>

    constructor (rows: Rows, decoded: set<Tx>)
      ensures this.rows == rows && this.decoded == decoded
    {
      this.rows, this.decoded := rows, decoded;
    }

    /** Both bulk inserts in one transaction: everything, or nothing on a conflict. */
    method BulkCreate(txs: seq<Tx>, parents: seq<Tx>) returns (ok: bool)
      modifies this
      ensures ok <==>
                && (forall i, j :: 0 <= i < |txs| && 0 <= j < |txs| && i != j ==> txs[i].key != txs[j].key)
                && (forall i, j :: 0 <= i < |parents| && 0 <= j < |parents| && i != j ==>
                      parents[i].key != parents[j].key)
                && (forall i :: 0 <= i < |txs| ==> txs[i].key !in old(rows))
      ensures rows == if ok then InsertAll(old(rows), txs) else old(rows)
      ensures decoded == if ok then old(decoded) + Members(parents) else old(decoded)
    {
      ok := NoConflict(rows, txs, parents);
      assert rows.Keys !! Keys(txs) <==> forall i :: 0 <= i < |txs| ==> txs[i].key !in rows;
      if ok {
        var added := map x | x in txs :: x.key := x;
        forall k
          ensures Lookup(rows + added, k) == Lookup(InsertAll(rows, txs), k)
        {
          FirstOfferWins(rows, txs, k);
          FirstIsAmong(txs, k);
        }
        SameLookups(rows + added, InsertAll(rows, txs));
        rows := rows + added;
        decoded := decoded + Members(parents);
      }
    }

    /** save(force_insert=True) in its own savepoint. */
    method Save(x: Tx) returns (ok: bool)
      modifies this`rows
      ensures ok <==> x.key !in old(rows)
      ensures rows == Insert(old(rows), x)
    {
      ok := x.key !in rows;
      if ok { rows := rows[x.key := x]; }
    }

    /** Decoded instances first; each one inserted leaves the list of the rest. */
    method SaveDecoded(txs: seq<Tx>, parents: seq<Tx>) returns (stored: seq<Tx>, left: seq<Tx>)
      requires forall p :: p in parents ==> p in txs
      modifies this
      ensures Halfway(old(rows), txs, parents, |parents|, rows, stored, left)
      ensures decoded == old(decoded) + Members(stored)
    {
      stored, left := [], txs;
      NoneOffered(rows, txs, parents);
      var i := 0;
      while i < |parents|
        invariant i <= |parents|
        invariant Halfway(old(rows), txs, parents, i, rows, stored, left)
        invariant decoded == old(decoded) + Members(stored)
      {
        SaveOneDecoded(old(rows), txs, parents, i, rows, stored, left);
        var x := parents[i];
        i := i + 1;
        var ok := Save(x);
        if ok {
          decoded := decoded + {x};
          left, stored := Without(left, x), stored + [x];
        }
      }
    }

    method SaveRest(left: seq<Tx>) returns (stored: seq<Tx>)
      modifies this`rows
      ensures rows == InsertAll(old(rows), left) && stored == Accepted(old(rows), left)
    {
      stored := [];
      var i := 0;
      while i < |left|
        invariant i <= |left|
        invariant rows == InsertAll(old(rows), left[..i]) && stored == Accepted(old(rows), left[..i])
      {
        OneMoreOffer(old(rows), left[..i], left[i]);
        assert left[..i + 1] == left[..i] + [left[i]];
        var ok := Save(left[i]);
        if ok { stored := stored + [left[i]]; }
        i := i + 1;
      }
      assert left[..i] == left;
    }

    /**
     The whole call. `left` is what remains in the caller's own list, which the
     fallback empties of the decoded instances it inserted.
     */
    method Store(txs: seq<Tx>, parents: seq<Tx>) returns (stored: seq<Tx>, left: seq<Tx>)
      requires forall p :: p in parents ==> p in txs
      modifies this
      ensures rows == InsertAll(old(rows), parents + txs)
      ensures AreTheNewRows(stored, old(rows), rows)
      ensures decoded == old(decoded) + Members(parents) * Members(stored)
      ensures forall x :: x in left ==> x in txs
    {
      if txs == [] {
        NothingToDecode(parents, txs);
        assert parents + txs == [];
        return [], txs;
      }
      var batch := BulkCreate(txs, parents);
      if batch {
        BatchIsOneByOne(old(rows), txs, parents);
        DistinctAllAccepted(old(rows), txs);
        AcceptedAreTheNewRows(old(rows), txs);
        assert Members(parents) * Members(txs) == Members(parents);
        return txs, txs;
      }
      ghost var before := rows;
      var first;
      first, left := SaveDecoded(txs, parents);
      AllOffered(before, txs, parents, rows, first, left);
      LeftIsFromTheList(rows, txs, first, left);
      ghost var mid := rows;
      var rest := SaveRest(left);
      InsertRest(before, parents, left, txs);
      InsertAppends(before, parents, left);
      AcceptedAppends(before, parents, left);
      AcceptedAreTheNewRows(before, parents + left);
      ParentsAreStoredFirst(before, parents, mid, left);
      stored := first + rest;
    }
  }

  lemma NothingToDecode(parents: seq<Tx>, txs: seq<Tx>)
    requires txs == [] && forall p :: p in parents ==> p in txs
    ensures parents == []
  {
    forall x
      ensures multiset(parents)[x] == 0
    {
      assert x in multiset(parents) <==> x in parents;
    }
    assert |parents| == |multiset(parents)|;
    assert multiset(parents) == multiset{};
  }

  /** A decoded instance that was refused once is refused again: none goes in without its decoded row. */
  lemma {:induction false} ParentsAreStoredFirst(rows: Rows, parents: seq<Tx>, mid: Rows, left: seq<Tx>)
    requires mid == InsertAll(rows, parents)
    ensures Members(parents) * Members(Accepted(rows, parents) + Accepted(mid, left))
        == Members(Accepted(rows, parents))
  {
    AcceptedAreTheNewRows(rows, parents);
    AcceptedAreTheNewRows(mid, left);
    KeysAfter(rows, parents);
    assert forall p :: p in parents ==> p.key in Keys(parents);
  }
}
