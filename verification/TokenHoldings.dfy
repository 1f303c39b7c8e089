/**
 The per-token read model, rewritten wholesale from the pair table in the same
 transaction as the ERC-20 delta.
 */
module TokenHoldings {
  import opened Options
  import opened Ledger
  import opened Ordering
  import opened NativeBalances
  import opened Erc20Balances
  import opened Sums

  datatype Holding = Holding(holders: nat, negativePairs: nat, totalBalance: int)

  /** What the rebuild reports for the whole chain. */
  datatype ChainLevel = ChainLevel(
    tokensWithHolders: nat, safesWithAnyErc20: nat, negativePairsTotal: int, orphanPairs: nat)

  function Orphans(pairs: Pairs, safes: set<Address>): set<Pair> {
    set k | k in pairs && k.safe !in safes
  }

  function Positive(pairs: Pairs, safes: set<Address>): set<Pair> {
    set k | k in pairs && k.safe in safes && pairs[k] > 0
  }

  function Negative(pairs: Pairs, safes: set<Address>): set<Pair> {
    set k | k in pairs && k.safe in safes && pairs[k] < 0
  }

  const TOKEN_OF: Pair -> Address := (k: Pair) => k.token

  function OfToken(ks: set<Pair>, token: Address): set<Pair> { Group(ks, TOKEN_OF, token) }

  /** Tokens with a pair whose Safe still exists: one row each. */
  function HeldTokens(pairs: Pairs, safes: set<Address>): set<Address> {
    set k | k in pairs && k.safe in safes :: k.token
  }

  ghost function Amount(pairs: Pairs): Pair -> int { k => Stored(pairs, k) }

  ghost function Rebuild(pairs: Pairs, safes: set<Address>): map<Address, Holding> {
    map t | t in HeldTokens(pairs, safes) ::
      Holding(|OfToken(Positive(pairs, safes), t)|, |OfToken(Negative(pairs, safes), t)|,
              SumOver(OfToken(Positive(pairs, safes), t), Amount(pairs)))
  }

  /** SUM over one column of the read model. */
  ghost function SumOfRows(rows: map<Address, Holding>, column: Holding -> int): int {
    SumOver(rows.Keys, Column(rows, column))
  }

  ghost function Column(rows: map<Address, Holding>, column: Holding -> int): Address -> int {
    t => if t in rows then column(rows[t]) else 0
  }

  ghost function Holders(rows: map<Address, Holding>): int { SumOfRows(rows, (r: Holding) => r.holders) }

  ghost function NegativePairs(rows: map<Address, Holding>): int { SumOfRows(rows, (r: Holding) => r.negativePairs) }

  ghost function TotalBalance(rows: map<Address, Holding>): int { SumOfRows(rows, (r: Holding) => r.totalBalance) }

  ghost function Summary(pairs: Pairs, safes: set<Address>): ChainLevel {
    var rows := Rebuild(pairs, safes);
    ChainLevel(|set t | t in rows && rows[t].holders > 0|,
               |set k | k in Positive(pairs, safes) :: k.safe|,
               NegativePairs(rows),
               |Orphans(pairs, safes)|)
  }

  lemma ColumnTotals(pairs: Pairs, safes: set<Address>)
    ensures var rows := Rebuild(pairs, safes);
            && Holders(rows) == |Positive(pairs, safes)|
            && NegativePairs(rows) == |Negative(pairs, safes)|
            && TotalBalance(rows) == SumOver(Positive(pairs, safes), Amount(pairs))
  {
    var rows := Rebuild(pairs, safes);
    var tokens := rows.Keys;
    var positive, negative := Positive(pairs, safes), Negative(pairs, safes);
    CountByGroup(positive, tokens, TOKEN_OF);
    SumSame(tokens, GroupSizes(positive, TOKEN_OF), Column(rows, (r: Holding) => r.holders));
    CountByGroup(negative, tokens, TOKEN_OF);
    SumSame(tokens, GroupSizes(negative, TOKEN_OF), Column(rows, (r: Holding) => r.negativePairs));
    SumByGroup(positive, tokens, TOKEN_OF, Amount(pairs));
    SumSame(tokens, GroupSums(positive, TOKEN_OF, Amount(pairs)), Column(rows, (r: Holding) => r.totalBalance));
  }

  lemma EmptyTableHasNoRows(safes: set<Address>)
    ensures Rebuild(map[], safes) == map[]
  {
  }

  const NO_ROW: Holding := Holding(0, 0, 0)

  function RowOf(rows: map<Address, Holding>, token: Address): Holding {
    if token in rows then rows[token] else NO_ROW
  }

  /** The aggregates of one group. */
  ghost function Figures(pairs: Pairs, p: set<Pair>, n: set<Pair>): Holding {
    Holding(|p|, |n|, SumOver(p, Amount(pairs)))
  }

  lemma RowIs(pairs: Pairs, safes: set<Address>, t: Address)
    ensures RowOf(Rebuild(pairs, safes), t)
         == Figures(pairs, OfToken(Positive(pairs, safes), t), OfToken(Negative(pairs, safes), t))
  {
    if t !in Rebuild(pairs, safes) {
      assert OfToken(Positive(pairs, safes), t) == {} && OfToken(Negative(pairs, safes), t) == {};
    }
  }

  /** What a new pair adds to a group of rows. */
  lemma SumGains(pairs: Pairs, ks: set<Pair>, k: Pair, v: int)
    requires k !in ks
    ensures SumOver(ks + {k}, Amount(pairs[k := v])) == SumOver(ks, Amount(pairs)) + v
    ensures SumOver(ks, Amount(pairs[k := v])) == SumOver(ks, Amount(pairs))
  {
    SumRemove(ks + {k}, Amount(pairs[k := v]), k);
    assert ks + {k} - {k} == ks;
    SumSame(ks, Amount(pairs), Amount(pairs[k := v]));
  }

  lemma GroupsMove(pairs: Pairs, safes: set<Address>, k: Pair, v: int, t: Address)
    requires k !in pairs
    ensures var mine := k.safe in safes && k.token == t;
            var p, n := OfToken(Positive(pairs, safes), t), OfToken(Negative(pairs, safes), t);
            && k !in p && k !in n
            && OfToken(Positive(pairs[k := v], safes), t) == (if mine && v > 0 then p + {k} else p)
            && OfToken(Negative(pairs[k := v], safes), t) == (if mine && v < 0 then n + {k} else n)
  {
  }

  /** The row after a pair of amount `v` has come to its token. */
  function Moved(row: Holding, v: int): Holding {
    Holding(row.holders + (if v > 0 then 1 else 0), row.negativePairs + (if v < 0 then 1 else 0),
            row.totalBalance + (if v > 0 then v else 0))
  }

  lemma FiguresMove(pairs: Pairs, p: set<Pair>, n: set<Pair>, k: Pair, v: int, mine: bool)
    requires k !in p && k !in n
    ensures var p', n' := if mine && v > 0 then p + {k} else p, if mine && v < 0 then n + {k} else n;
            Figures(pairs[k := v], p', n') == if mine then Moved(Figures(pairs, p, n), v) else Figures(pairs, p, n)
  {
    SumGains(pairs, p, k, v);
  }

  lemma RowMoves(pairs: Pairs, safes: set<Address>, k: Pair, v: int, t: Address)
    requires k !in pairs
    ensures var row := RowOf(Rebuild(pairs, safes), t);
            RowOf(Rebuild(pairs[k := v], safes), t) == if k.safe in safes && k.token == t then Moved(row, v) else row
  {
    var after := pairs[k := v];
    RowIs(pairs, safes, t);
    RowIs(after, safes, t);
    GroupsMove(pairs, safes, k, v, t);
    var p, n := OfToken(Positive(pairs, safes), t), OfToken(Negative(pairs, safes), t);
    var p', n' := OfToken(Positive(after, safes), t), OfToken(Negative(after, safes), t);
    FiguresMove(pairs, p, n, k, v, k.safe in safes && k.token == t);
    assert RowOf(Rebuild(after, safes), t) == Figures(after, p', n');
  }

  lemma RowsGrow(pairs: Pairs, safes: set<Address>, k: Pair, v: int)
    requires k !in pairs
    ensures Rebuild(pairs[k := v], safes).Keys == Rebuild(pairs, safes).Keys + if k.safe in safes then {k.token} else {}
  {
    var after := pairs[k := v];
    assert after.Keys == pairs.Keys + {k};
    forall t
      ensures t in HeldTokens(after, safes) <==> t in HeldTokens(pairs, safes) || (k.safe in safes && t == k.token)
    {
      if t in HeldTokens(pairs, safes) {
        var j :| j in pairs && j.safe in safes && j.token == t;
        assert j in after;
      }
    }
  }

  /**
   What each row is: a new pair of an existing Safe moves the row of its own token and
   no other, by one holder and its amount when positive, by one negative pair when
   negative; a pair without a Safe moves nothing. With the empty table this fixes every
   column of every row.
   */
  lemma StoringAPairMovesItsRow(pairs: Pairs, safes: set<Address>, k: Pair, v: int)
    requires k !in pairs
    ensures var before, after := Rebuild(pairs, safes), Rebuild(pairs[k := v], safes);
            && (k.safe !in safes ==> after == before)
            && (k.safe in safes ==>
                  var row := RowOf(before, k.token);
                  after == before[k.token := Holding(row.holders + (if v > 0 then 1 else 0),
                                                     row.negativePairs + (if v < 0 then 1 else 0),
                                                     row.totalBalance + (if v > 0 then v else 0))])
  {
    RowsGrow(pairs, safes, k, v);
    forall t
      ensures var row := RowOf(Rebuild(pairs, safes), t);
              RowOf(Rebuild(pairs[k := v], safes), t) == if k.safe in safes && k.token == t then Moved(row, v) else row
    {
      RowMoves(pairs, safes, k, v, t);
    }
    SameRows(Rebuild(pairs, safes), Rebuild(pairs[k := v], safes), k, v, k.safe in safes);
  }

  /** Rows that agree token by token. */
  lemma SameRows(before: map<Address, Holding>, after: map<Address, Holding>, k: Pair, v: int, moves: bool)
    requires after.Keys == before.Keys + if moves then {k.token} else {}
    requires forall t ::
               RowOf(after, t) == if moves && k.token == t then Moved(RowOf(before, t), v) else RowOf(before, t)
    ensures after == if moves then before[k.token := Moved(RowOf(before, k.token), v)] else before
  {
    forall t | t in after
      ensures (moves && t == k.token) || (t in before && after[t] == before[t])
    {
      assert RowOf(after, t) == after[t];
    }
    assert RowOf(after, k.token) == RowOf(after, k.token);
  }

  /** The figures for the chain, counted over the pairs alone. */
  lemma ChainLevelCounts(pairs: Pairs, safes: set<Address>, tokens: set<Address>, holding: set<Address>,
                         negative: set<Pair>, orphans: set<Pair>)
    requires forall t :: t in tokens <==> exists k :: k in pairs && k.safe in safes && pairs[k] > 0 && k.token == t
    requires forall a :: a in holding <==> a in safes && exists k :: k in pairs && pairs[k] > 0 && k.safe == a
    requires forall k :: k in negative <==> k in pairs && k.safe in safes && pairs[k] < 0
    requires forall k :: k in orphans <==> k in pairs && k.safe !in safes
    ensures Summary(pairs, safes) == ChainLevel(|tokens|, |holding|, |negative|, |orphans|)
  {
    TokensWithHolders(pairs, safes, tokens);
    HoldingSafes(pairs, safes, holding);
    NegativeTotal(pairs, safes, negative);
    assert orphans == Orphans(pairs, safes);
  }

  lemma HoldingSafes(pairs: Pairs, safes: set<Address>, holding: set<Address>)
    requires forall a :: a in holding <==> a in safes && exists k :: k in pairs && pairs[k] > 0 && k.safe == a
    ensures holding == set k | k in Positive(pairs, safes) :: k.safe
  {
  }

  lemma NegativeTotal(pairs: Pairs, safes: set<Address>, negative: set<Pair>)
    requires forall k :: k in negative <==> k in pairs && k.safe in safes && pairs[k] < 0
    ensures NegativePairs(Rebuild(pairs, safes)) == |negative|
  {
    ColumnTotals(pairs, safes);
    assert negative == Negative(pairs, safes);
  }

  lemma TokensWithHolders(pairs: Pairs, safes: set<Address>, tokens: set<Address>)
    requires forall t :: t in tokens <==> exists k :: k in pairs && k.safe in safes && pairs[k] > 0 && k.token == t
    ensures tokens == set t | t in Rebuild(pairs, safes) && Rebuild(pairs, safes)[t].holders > 0
  {
    forall t
      ensures t in tokens <==> t in Rebuild(pairs, safes) && Rebuild(pairs, safes)[t].holders > 0
    {
      TokenIsListed(pairs, safes, t);
    }
  }

  function ZeroRows(pairs: Pairs, safes: set<Address>): set<Pair> {
    set k | k in pairs && k.safe in safes && pairs[k] == 0
  }

  /**
   Every stored pair is counted once: as a holder, as a negative pair, as an orphan,
   or as a zero row that should not be there. So the three published counts add up
   to the table exactly when no Safe has a zero row.
   */
  lemma EveryPairIsCounted(pairs: Pairs, safes: set<Address>)
    ensures var rows := Rebuild(pairs, safes);
            var published := Holders(rows) + NegativePairs(rows) + |Orphans(pairs, safes)|;
            && published + |ZeroRows(pairs, safes)| == |pairs|
            && (published == |pairs| <==> ZeroRows(pairs, safes) == {})
  {
    ColumnTotals(pairs, safes);
    PairsSplit(pairs, safes);
    var zeros := ZeroRows(pairs, safes);
    assert |zeros| == 0 <==> zeros == {};
  }

  /** Positive, negative, orphan, zero: each pair is exactly one of them. */
  lemma PairsSplit(pairs: Pairs, safes: set<Address>)
    ensures |Positive(pairs, safes)| + |Negative(pairs, safes)| + |Orphans(pairs, safes)| + |ZeroRows(pairs, safes)|
            == |pairs|
  {
    var p, n, o, z := Positive(pairs, safes), Negative(pairs, safes), Orphans(pairs, safes), ZeroRows(pairs, safes);
    FourParts(p, n, o, z);
    assert pairs.Keys == p + n + o + z;
    assert |pairs.Keys| == |pairs|;
  }

  lemma FourParts<T>(a: set<T>, b: set<T>, c: set<T>, d: set<T>)
    requires a !! b !! c !! d
    ensures |a + b + c + d| == |a| + |b| + |c| + |d|
  {
    assert |a + b| == |a| + |b|;
    assert |a + b + c| == |a + b| + |c|;
  }

  /** The rollup never stores a zero, so the read model it rebuilds accounts for every pair. */
  lemma RollupConservesPairs(pairs: Pairs, safes: Safes, upTo: Option<Stamp>, b: nat, h: seq<Movement<Pair>>)
    requires Stands(pairs, safes, upTo, b, h)
    ensures var rows, s := Rebuild(pairs, safes.Keys), Summary(pairs, safes.Keys);
            Holders(rows) + s.negativePairsTotal + s.orphanPairs == |pairs|
  {
    EveryPairIsCounted(pairs, safes.Keys);
    assert ZeroRows(pairs, safes.Keys) == {};
  }

  /** A token has a row exactly while some existing Safe has a pair of it, so an abandoned token disappears. */
  lemma TokenIsListed(pairs: Pairs, safes: set<Address>, token: Address)
    ensures token in Rebuild(pairs, safes) <==> exists k :: k in pairs && k.safe in safes && k.token == token
    ensures token in Rebuild(pairs, safes) ==>
              (Rebuild(pairs, safes)[token].holders > 0 <==>
               exists k :: k in pairs && k.safe in safes && k.token == token && pairs[k] > 0)
  {
    var held := OfToken(Positive(pairs, safes), token);
    assert held != {} <==> |held| > 0;
    if exists k :: k in pairs && k.safe in safes && k.token == token && pairs[k] > 0 {
      var k :| k in pairs && k.safe in safes && k.token == token && pairs[k] > 0;
      assert k in held;
    }
    if held != {} {
      var k :| k in held;
      assert k in pairs && k.safe in safes && k.token == token && pairs[k] > 0;
    }
  }

  lemma {:induction false} ImageIsSmaller(ks: set<Pair>)
    ensures |set k | k in ks :: k.safe| <= |ks|
    decreases |ks|
  {
    var image := set k | k in ks :: k.safe;
    if ks != {} {
      var k :| k in ks;
      ImageIsSmaller(ks - {k});
      assert image == (set j | j in ks - {k} :: j.safe) + {k.safe};
    } else {
      assert image == {};
    }
  }

  /** Safes holding anything are no more than holders counted per token. */
  lemma SafesAtMostHolders(pairs: Pairs, safes: set<Address>)
    ensures Summary(pairs, safes).safesWithAnyErc20 <= Holders(Rebuild(pairs, safes))
    ensures Summary(pairs, safes).safesWithAnyErc20 <= |safes|
  {
    ColumnTotals(pairs, safes);
    ImageIsSmaller(Positive(pairs, safes));
    SubsetSize(set k | k in Positive(pairs, safes) :: k.safe, safes);
  }
}
