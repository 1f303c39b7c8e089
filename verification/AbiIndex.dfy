/**
 The selector index of the transaction decoder: which ABI decodes a selector, how the
 index is built, and how it follows the ABI table without being rebuilt.
 */
module AbiIndex {
  import opened Options

  /** Four bytes, read as a number. */
  type Selector = s: nat | s < 0x1_0000_0000

  /** One item of an ABI. Only functions have a selector; `body` tells renamed or retyped ones apart. */
  datatype Item = Function(selector: Selector, body: nat) | Other(kind: string)

  type Abi = seq<Item>

  type Index = map<Selector, Item>

  function Lookup(index: Index, s: Selector): Option<Item> { if s in index then Some(index[s]) else None }

  // -------------------------------------------------------------------------- building

  /** The dict comprehension over one ABI: a later item replaces an earlier one. */
  function OfAbi(abi: Abi): Index {
    if abi == [] then map[]
    else
      var before, last := OfAbi(abi[..|abi| - 1]), abi[|abi| - 1];
      if last.Function? then before[last.selector := last] else before
  }

  /** The nested comprehension over all ABIs. */
  function OfAbis(abis: seq<Abi>): Index {
    if abis == [] then map[] else OfAbis(abis[..|abis| - 1]) + OfAbi(abis[|abis| - 1])
  }

  function Flatten(abis: seq<Abi>): seq<Item> {
    if abis == [] then [] else Flatten(abis[..|abis| - 1]) + abis[|abis| - 1]
  }

  /** A scan without an index: the last function with the selector. */
  function LastMatch(items: seq<Item>, s: Selector): Option<Item> {
    if items == [] then None
    else
      var last := items[|items| - 1];
      if last.Function? && last.selector == s then Some(last) else LastMatch(items[..|items| - 1], s)
  }

  lemma {:induction false} LastMatchOfAppend(xs: seq<Item>, ys: seq<Item>, s: Selector)
    ensures LastMatch(xs + ys, s) == if LastMatch(ys, s).Some? then LastMatch(ys, s) else LastMatch(xs, s)
    decreases |ys|
  {
    if ys == [] {
      assert xs + ys == xs;
    } else {
      LastMatchOfAppend(xs, ys[..|ys| - 1], s);
      assert (xs + ys)[..|xs + ys| - 1] == xs + ys[..|ys| - 1];
    }
  }

  lemma {:induction false} AbiIndexIsLastMatch(abi: Abi, s: Selector)
    ensures Lookup(OfAbi(abi), s) == LastMatch(abi, s)
  {
    if abi != [] { AbiIndexIsLastMatch(abi[..|abi| - 1], s); }
  }

  /** The index answers every selector as a last-match scan over all items would. */
  lemma {:induction false} IndexIsLastMatch(abis: seq<Abi>, s: Selector)
    ensures Lookup(OfAbis(abis), s) == LastMatch(Flatten(abis), s)
  {
    if abis != [] {
      var before, last := abis[..|abis| - 1], abis[|abis| - 1];
      IndexIsLastMatch(before, s);
      AbiIndexIsLastMatch(last, s);
      LastMatchOfAppend(Flatten(before), last, s);
    }
  }

  // ------------------------------------------------------------------------ preference

  predicate Defines(abi: Abi, s: Selector) { s in OfAbi(abi) }

  predicate Wins(abis: seq<Abi>, i: nat, s: Selector) {
    i < |abis| && Defines(abis[i], s) && forall j :: i < j < |abis| ==> !Defines(abis[j], s)
  }

  lemma {:induction false} LastDefiningAbiWins(abis: seq<Abi>, s: Selector)
    ensures s in OfAbis(abis) <==> exists i :: 0 <= i < |abis| && Defines(abis[i], s)
    ensures s in OfAbis(abis) ==> exists i: nat :: Wins(abis, i, s) && OfAbis(abis)[s] == OfAbi(abis[i])[s]
  {
    if abis != [] {
      var n := |abis| - 1;
      var before := abis[..n];
      LastDefiningAbiWins(before, s);
      assert forall i :: 0 <= i < n ==> before[i] == abis[i];
      if Defines(abis[n], s) {
        assert Wins(abis, n, s);
      } else if s in OfAbis(abis) {
        var i: nat :| Wins(before, i, s) && OfAbis(before)[s] == OfAbi(before[i])[s];
        assert Wins(abis, i, s);
      }
    }
  }

  /** A row of the ABI table. */
  datatype Row = Row(id: nat, abi: Abi, relevance: int)

  /** `ORDER BY -relevance`: any listing of the table by falling relevance number, ties in any order. */
  ghost predicate ByRelevance(listing: seq<Row>, table: set<Row>) {
    && (forall r :: r in listing <==> r in table)
    && forall i, j :: 0 <= i < j < |listing| ==> listing[i].relevance >= listing[j].relevance
  }

  function Abis(rows: seq<Row>): seq<Abi> { seq(|rows|, i requires 0 <= i < |rows| => rows[i].abi) }

  /** The rebuilt index: database ABIs first, the hard-coded ones after them. */
  function Rebuilt(listing: seq<Row>, hard: seq<Abi>): Index { OfAbis(Abis(listing) + hard) }

  lemma {:induction false} OfAbisAppends(xs: seq<Abi>, ys: seq<Abi>)
    ensures OfAbis(xs + ys) == OfAbis(xs) + OfAbis(ys)
    decreases |ys|
  {
    if ys == [] {
      assert xs + ys == xs;
    } else {
      var n := |ys| - 1;
      OfAbisAppends(xs, ys[..n]);
      assert (xs + ys)[..|xs + ys| - 1] == xs + ys[..n];
      assert OfAbis(xs) + (OfAbis(ys[..n]) + OfAbi(ys[n])) == (OfAbis(xs) + OfAbis(ys[..n])) + OfAbi(ys[n]);
    }
  }

  lemma TableDefines(listing: seq<Row>, table: set<Row>, s: Selector)
    requires ByRelevance(listing, table)
    ensures s in OfAbis(Abis(listing)) <==> exists r :: r in table && Defines(r.abi, s)
  {
    var abis := Abis(listing);
    LastDefiningAbiWins(abis, s);
    if exists r :: r in table && Defines(r.abi, s) {
      var r :| r in table && Defines(r.abi, s);
      var i :| 0 <= i < |listing| && listing[i] == r;
      assert Defines(abis[i], s);
    }
  }

  lemma LaterRowsAreMoreRelevant(listing: seq<Row>, table: set<Row>, i: nat, s: Selector)
    requires ByRelevance(listing, table) && Wins(Abis(listing), i, s)
    ensures forall q :: q in table && Defines(q.abi, s) ==> listing[i].relevance <= q.relevance
  {
    forall q | q in table && Defines(q.abi, s)
      ensures listing[i].relevance <= q.relevance
    {
      var j :| 0 <= j < |listing| && listing[j] == q;
      assert Defines(Abis(listing)[j], s);
      assert j <= i;
    }
  }

  lemma MostRelevantWins(listing: seq<Row>, table: set<Row>, s: Selector) returns (r: Row)
    requires ByRelevance(listing, table) && s in OfAbis(Abis(listing))
    ensures r in table && Defines(r.abi, s) && OfAbis(Abis(listing))[s] == OfAbi(r.abi)[s]
    ensures forall q :: q in table && Defines(q.abi, s) ==> r.relevance <= q.relevance
  {
    var abis := Abis(listing);
    LastDefiningAbiWins(abis, s);
    var i: nat :| Wins(abis, i, s) && OfAbis(abis)[s] == OfAbi(abis[i])[s];
    r := listing[i];
    assert r in listing && abis[i] == r.abi;
    LaterRowsAreMoreRelevant(listing, table, i, s);
  }

  /**
   A hard-coded ABI beats every database one; among database ABIs the function comes
   from a row whose relevance number no other row with the selector undercuts.
   */
  lemma PreferenceOrder(listing: seq<Row>, table: set<Row>, hard: seq<Abi>, s: Selector)
    requires ByRelevance(listing, table)
    ensures var index := Rebuilt(listing, hard);
            && (s in index <==> s in OfAbis(hard) || exists r :: r in table && Defines(r.abi, s))
            && (s in OfAbis(hard) ==> index[s] == OfAbis(hard)[s])
            && (s in index && s !in OfAbis(hard) ==>
                  exists r :: r in table && Defines(r.abi, s) && index[s] == OfAbi(r.abi)[s]
                    && forall q :: q in table && Defines(q.abi, s) ==> r.relevance <= q.relevance)
  {
    OfAbisAppends(Abis(listing), hard);
    TableDefines(listing, table, s);
    if s in OfAbis(Abis(listing)) {
      var r := MostRelevantWins(listing, table, s);
    }
  }

  // ------------------------------------------------------------- following the table

  /** What saving one more ABI adds: only selectors that were not there. */
  function Added(index: Index, abi: Abi): Index { OfAbi(abi) + index }

  /** One process: the table all share, its own index, and every ABI it ever learnt. */
  datatype State = State(table: set<Row>, index: Index, ghost learnt: set<Abi>)

  datatype Change = Save(row: Row) | SaveElsewhere(row: Row) | Delete(id: nat)

  function Stored(table: set<Row>, row: Row): set<Row> { (set r | r in table && r.id != row.id) + {row} }

  /**
   Saving a row whose id is there replaces it. The signal reaches the decoder of the
   process that saves and of no other; deletion sends none.
   */
  ghost function Step(s: State, c: Change): State {
    match c
    case Save(row) =>
      State(Stored(s.table, row), Added(s.index, row.abi), s.learnt + {row.abi})
    case SaveElsewhere(row) => s.(table := Stored(s.table, row))
    case Delete(id) => s.(table := set r | r in s.table && r.id != id)
  }

  ghost function Run(s: State, cs: seq<Change>): State {
    if cs == [] then s else Step(Run(s, cs[..|cs| - 1]), cs[|cs| - 1])
  }

  predicate Touches(c: Change, id: nat) {
    match c
    case Save(row) => row.id == id
    case SaveElsewhere(row) => row.id == id
    case Delete(gone) => gone == id
  }

  /** Saved by the i-th change, and neither saved again nor deleted since. */
  ghost predicate SavedLast(cs: seq<Change>, row: Row, i: nat) {
    && i < |cs| && (cs[i] == Save(row) || cs[i] == SaveElsewhere(row))
    && forall j :: i < j < |cs| ==> !Touches(cs[j], row.id)
  }

  ghost predicate Untouched(cs: seq<Change>, id: nat) { forall c :: c in cs ==> !Touches(c, id) }

  /** The shared table holds, for each id, the row of the latest save unless it was deleted since. */
  lemma {:induction false} TableIsTheLatestSaves(s: State, cs: seq<Change>, row: Row)
    ensures row in Run(s, cs).table <==>
              (exists i :: SavedLast(cs, row, i)) || (row in s.table && Untouched(cs, row.id))
  {
    if cs != [] {
      var n := |cs| - 1;
      var before, last := cs[..n], cs[n];
      assert cs == before + [last];
      TableIsTheLatestSaves(s, before, row);
      if Touches(last, row.id) {
        assert last == Save(row) || last == SaveElsewhere(row) ==> SavedLast(cs, row, n);
      } else {
        assert forall i: nat :: i < n ==> (SavedLast(cs, row, i) <==> SavedLast(before, row, i));
        assert !SavedLast(cs, row, n);
      }
    }
  }

  /** A decoder loaded over `table`. */
  ghost predicate Loaded(s: State, listing: seq<Row>, hard: seq<Abi>) {
    && ByRelevance(listing, s.table)
    && s.index == Rebuilt(listing, hard)
    && s.learnt == set r | r in s.table :: r.abi
  }

  /** The index holds exactly the selectors of everything learnt. */
  ghost predicate Indexed(s: State, hard: seq<Abi>) {
    forall x :: x in s.index <==> x in OfAbis(hard) || exists abi :: abi in s.learnt && Defines(abi, x)
  }

  /** The table holds nothing this process did not learn. */
  ghost predicate Known(s: State) { forall r :: r in s.table ==> r.abi in s.learnt }

  ghost predicate Local(cs: seq<Change>) { forall c :: c in cs ==> !c.SaveElsewhere? }

  lemma LoadedIsIndexed(s: State, listing: seq<Row>, hard: seq<Abi>)
    requires Loaded(s, listing, hard)
    ensures Indexed(s, hard) && Known(s)
  {
    forall x
      ensures x in s.index <==> x in OfAbis(hard) || exists abi :: abi in s.learnt && Defines(abi, x)
    {
      PreferenceOrder(listing, s.table, hard, x);
      if exists r :: r in s.table && Defines(r.abi, x) {
        var r :| r in s.table && Defines(r.abi, x);
        assert r.abi in s.learnt;
      }
    }
  }

  /** No sequence of saves and deletions changes, or drops, a selector that is indexed. */
  lemma {:induction false} IndexedSelectorsStay(s: State, cs: seq<Change>, x: Selector)
    requires x in s.index
    ensures x in Run(s, cs).index && Run(s, cs).index[x] == s.index[x]
  {
    if cs != [] { IndexedSelectorsStay(s, cs[..|cs| - 1], x); }
  }

  /** And a selector that a save brings in answers with that ABI's last function for it, for good. */
  lemma NewSelectorsAreTheSavedOnes(s: State, row: Row, cs: seq<Change>, x: Selector)
    requires x !in s.index && Defines(row.abi, x)
    ensures Lookup(Run(Step(s, Save(row)), cs).index, x) == LastMatch(row.abi, x)
  {
    AbiIndexIsLastMatch(row.abi, x);
    IndexedSelectorsStay(Step(s, Save(row)), cs, x);
  }

  lemma {:induction false} RunsStayIndexed(s: State, cs: seq<Change>, hard: seq<Abi>)
    requires Indexed(s, hard)
    ensures Indexed(Run(s, cs), hard)
  {
    if cs != [] {
      var before, c := Run(s, cs[..|cs| - 1]), cs[|cs| - 1];
      RunsStayIndexed(s, cs[..|cs| - 1], hard);
      if c.Save? {
        assert forall abi :: abi in before.learnt + {c.row.abi} <==> abi in before.learnt || abi == c.row.abi;
        assert forall x :: x in Added(before.index, c.row.abi) <==> x in before.index || Defines(c.row.abi, x);
      }
    }
  }

  lemma {:induction false} LocalRunsKnowTheTable(s: State, cs: seq<Change>)
    requires Known(s) && Local(cs)
    ensures Known(Run(s, cs))
  {
    if cs != [] {
      assert cs[|cs| - 1] in cs && forall c :: c in cs[..|cs| - 1] ==> c in cs;
      LocalRunsKnowTheTable(s, cs[..|cs| - 1]);
    }
  }

  /**
   The running index has the same selectors as a rebuild exactly when each selector
   learnt is still defined somewhere: always while rows are only created, and after an
   update or a deletion as long as it took away no selector for good.
   */
  lemma SelectorsMatchRebuildExactlyWhen(s: State, listing: seq<Row>, hard: seq<Abi>)
    requires Indexed(s, hard) && Known(s) && ByRelevance(listing, s.table)
    ensures Rebuilt(listing, hard).Keys <= s.index.Keys
    ensures s.index.Keys == Rebuilt(listing, hard).Keys <==>
              forall abi, x :: abi in s.learnt && Defines(abi, x) ==>
                x in OfAbis(hard) || exists r :: r in s.table && Defines(r.abi, x)
  {
    var rebuilt := Rebuilt(listing, hard);
    forall x
      ensures x in rebuilt <==> x in OfAbis(hard) || exists r :: r in s.table && Defines(r.abi, x)
    {
      PreferenceOrder(listing, s.table, hard, x);
    }
  }

  ghost predicate OnlyCreates(s: State, cs: seq<Change>) {
    cs == [] ||
    (OnlyCreates(s, cs[..|cs| - 1]) && cs[|cs| - 1].Save?
     && forall r :: r in Run(s, cs[..|cs| - 1]).table ==> r.id != cs[|cs| - 1].row.id)
  }

  lemma {:induction false} CreatesAreLocal(s: State, cs: seq<Change>)
    requires OnlyCreates(s, cs)
    ensures Local(cs)
  {
    if cs != [] {
      CreatesAreLocal(s, cs[..|cs| - 1]);
      assert cs == cs[..|cs| - 1] + [cs[|cs| - 1]];
    }
  }

  lemma {:induction false} CreatesForgetNothing(s: State, cs: seq<Change>)
    requires OnlyCreates(s, cs) && forall abi :: abi in s.learnt ==> exists r :: r in s.table && r.abi == abi
    ensures forall abi :: abi in Run(s, cs).learnt ==> exists r :: r in Run(s, cs).table && r.abi == abi
  {
    if cs != [] {
      var before, c := Run(s, cs[..|cs| - 1]), cs[|cs| - 1];
      CreatesForgetNothing(s, cs[..|cs| - 1]);
      assert forall r :: r in before.table ==> r in Step(before, c).table;
      assert c.row in Step(before, c).table;
    }
  }

  /** While rows are only created, the running index has exactly the selectors of a rebuild. */
  lemma CreatesKeepSelectors(s: State, cs: seq<Change>, first: seq<Row>, listing: seq<Row>, hard: seq<Abi>)
    requires Loaded(s, first, hard) && OnlyCreates(s, cs) && ByRelevance(listing, Run(s, cs).table)
    ensures Run(s, cs).index.Keys == Rebuilt(listing, hard).Keys
  {
    LoadedIsIndexed(s, first, hard);
    RunsStayIndexed(s, cs, hard);
    CreatesAreLocal(s, cs);
    LocalRunsKnowTheTable(s, cs);
    CreatesForgetNothing(s, cs);
    SelectorsMatchRebuildExactlyWhen(Run(s, cs), listing, hard);
  }

  // ---------------------------------------------------------------------------- lookup

  /** `contract` is the ABI of the address, when one was given and it has one. */
  function AbiFunction(index: Index, contract: Option<Abi>, s: Selector): Option<Item> {
    if s !in index then None
    else if contract.Some? && contract.value != [] && Defines(contract.value, s) then Some(OfAbi(contract.value)[s])
    else Some(index[s])
  }

  /** The address's own ABI decides a selector it defines exactly when the index knows that selector at all. */
  lemma OwnAbiWinsExactlyWhen(index: Index, abi: Abi, s: Selector)
    requires Defines(abi, s)
    ensures AbiFunction(index, Some(abi), s) == Lookup(OfAbi(abi), s) <==> s in index
  {
    assert abi != [];
  }

  /** Any other known selector is answered from the index: no address, no ABI for it, or one without the selector. */
  lemma IndexAnswersTheRest(index: Index, contract: Option<Abi>, s: Selector)
    requires contract.Some? ==> !Defines(contract.value, s)
    ensures AbiFunction(index, contract, s) == Lookup(index, s)
  {
  }

  /** Over a process's whole life: exactly when it learnt some ABI with the selector, or one is hard-coded. */
  lemma OwnAbiWinsExactlyWhenLearnt(s: State, cs: seq<Change>, listing: seq<Row>, hard: seq<Abi>, row: Row, x: Selector)
    requires Loaded(s, listing, hard) && row in Run(s, cs).table && Defines(row.abi, x)
    ensures AbiFunction(Run(s, cs).index, Some(row.abi), x) == LastMatch(row.abi, x) <==>
              x in OfAbis(hard) || exists abi :: abi in Run(s, cs).learnt && Defines(abi, x)
  {
    LoadedIsIndexed(s, listing, hard);
    RunsStayIndexed(s, cs, hard);
    OwnAbiWinsExactlyWhen(Run(s, cs).index, row.abi, x);
    AbiIndexIsLastMatch(row.abi, x);
  }

  /** So it always wins when every save since the load was this process's own. */
  lemma OwnAbiWins(s: State, cs: seq<Change>, listing: seq<Row>, hard: seq<Abi>, row: Row, x: Selector)
    requires Loaded(s, listing, hard) && Local(cs) && row in Run(s, cs).table && Defines(row.abi, x)
    ensures AbiFunction(Run(s, cs).index, Some(row.abi), x) == LastMatch(row.abi, x)
  {
    OwnAbiWinsExactlyWhenLearnt(s, cs, listing, hard, row, x);
    LoadedIsIndexed(s, listing, hard);
    LocalRunsKnowTheTable(s, cs);
  }

  const NEW_ABI: Abi := [Function(7, 0)]

  /** A row that another process saved: this one decodes nothing with it, not even for its own contract. */
  lemma RowSavedElsewhereIsNotConsulted()
    ensures var s, row := State({}, map[], {}), Row(1, NEW_ABI, 100);
            var now := Run(s, [SaveElsewhere(row)]);
            && Loaded(s, [], []) && row in now.table && Defines(NEW_ABI, 7)
            && AbiFunction(now.index, Some(NEW_ABI), 7) == None
  {
    var s, row := State({}, map[], {}), Row(1, NEW_ABI, 100);
    var cs := [SaveElsewhere(row)];
    assert cs[..0] == [] && Run(s, cs) == Step(s, cs[0]);
    assert NEW_ABI[..0] == [];
    assert OfAbi(NEW_ABI) == map[7 := Function(7, 0)];
    assert Abis([]) + [] == [];
  }

  // --------------------------------------------------------------------- the code itself

  class Decoder {
    var index: Index

    constructor (supported: seq<Abi>)
      ensures index == OfAbis(supported)
    {
      index := OfAbis(supported);
    }

    /** Learn one more ABI without a rebuild. */
    method AddAbi(abi: Abi) returns (updated: bool)
      modifies this
      ensures index == Added(old(index), abi)
      ensures updated <==> index != old(index)
      ensures updated <==> exists s :: s in OfAbi(abi) && s !in old(index)
    {
      updated := false;
      var offered := OfAbi(abi);
      var rest := offered.Keys;
      while rest != {}
        invariant rest <= offered.Keys
        invariant forall s :: s in index <==> s in old(index) || (s in offered && s !in rest)
        invariant forall s :: s in index ==> index[s] == if s in old(index) then old(index)[s] else offered[s]
        invariant updated <==> exists s :: s in offered && s !in rest && s !in old(index)
        decreases rest
      {
        var selector :| selector in rest;
        if selector !in index {
          index := index[selector := offered[selector]];
          updated := true;
        }
        rest := rest - {selector};
      }
      assert updated ==> exists s :: s in index && s !in old(index);
    }
  }
}
