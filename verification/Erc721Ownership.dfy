/**
 Owned NFTs by counting: a token is listed for an address when it came in more
 often than it went out, transfers to oneself aside.
 */
module Erc721Ownership {
  import opened Ordering

  type Address = nat

  /** A contract and a token id. */
  datatype Nft = Nft(token: Address, id: nat)

  /** A Transfer event; minting comes from address zero, burning goes to it. */
  datatype Transfer = Transfer(nft: Nft, from: Address, to: Address)

  const ZERO: Address := 0

  // ------------------------------------------------------------------ who owns what

  /** The owner after all of `h`: whoever received the token last, nobody (zero) before its minting. */
  function OwnerOf(h: seq<Transfer>, nft: Nft): Address {
    if h == [] then ZERO
    else
      var last := h[|h| - 1];
      if last.nft == nft then last.to else OwnerOf(h[..|h| - 1], nft)
  }

  /** Each transfer leaves the owner of the moment, as EIP-721 requires of a Transfer event. */
  ghost predicate Lawful(h: seq<Transfer>) {
    h == [] || (Lawful(h[..|h| - 1]) && h[|h| - 1].from == OwnerOf(h[..|h| - 1], h[|h| - 1].nft))
  }

  // ------------------------------------------------------------------------ the query

  predicate CameIn(t: Transfer, who: Address) { t.to == who && t.to != t.from }

  predicate WentOut(t: Transfer, who: Address) { t.from == who && t.to != t.from }

  function Ins(h: seq<Transfer>, who: Address, nft: Nft): nat {
    if h == [] then 0
    else Ins(h[..|h| - 1], who, nft) + (if h[|h| - 1].nft == nft && CameIn(h[|h| - 1], who) then 1 else 0)
  }

  function Outs(h: seq<Transfer>, who: Address, nft: Nft): nat {
    if h == [] then 0
    else Outs(h[..|h| - 1], who, nft) + (if h[|h| - 1].nft == nft && WentOut(h[|h| - 1], who) then 1 else 0)
  }

  /** The groups of the inner query. */
  function Received(h: seq<Transfer>, who: Address): set<Nft> {
    set t | t in h && CameIn(t, who) :: t.nft
  }

  /** The token table as the filters see it. */
  datatype Tokens = Tokens(trusted: set<Address>, spam: set<Address>)

  /** The two flags are not combined: asking for trusted tokens overrides excluding spam. */
  predicate Passes(tokens: Tokens, nft: Nft, onlyTrusted: bool, excludeSpam: bool) {
    if onlyTrusted then nft.token in tokens.trusted
    else excludeSpam ==> nft.token !in tokens.spam
  }

  function Rows(h: seq<Transfer>, who: Address, tokens: Tokens, onlyTrusted: bool, excludeSpam: bool): set<Nft> {
    set n | n in Received(h, who) && Ins(h, who, n) > Outs(h, who, n) && Passes(tokens, n, onlyTrusted, excludeSpam)
  }

  const BY_TOKEN_THEN_ID: (Nft, Nft) -> bool :=
    (x: Nft, y: Nft) => x.token < y.token || (x.token == y.token && x.id < y.id)

  lemma NftOrderIsStrict()
    ensures StrictOrder(BY_TOKEN_THEN_ID)
  {
  }

  ghost function OwnedBy(h: seq<Transfer>, who: Address, tokens: Tokens, onlyTrusted: bool,
                         excludeSpam: bool): seq<Nft> {
    NftOrderIsStrict();
    Listing(Rows(h, who, tokens, onlyTrusted, excludeSpam), BY_TOKEN_THEN_ID)
  }

  // ------------------------------------------------------------------ counting is owning

  /** For anyone but the zero address, the difference of the two counts is 1 for the owner and 0 for everybody else. */
  lemma {:induction false} CountsTellTheOwner(h: seq<Transfer>, who: Address, nft: Nft)
    requires Lawful(h) && who != ZERO
    ensures Ins(h, who, nft) - Outs(h, who, nft) == if OwnerOf(h, nft) == who then 1 else 0
  {
    if h != [] { CountsTellTheOwner(h[..|h| - 1], who, nft); }
  }

  /** The zero address: every minting goes out of it and every burning comes in, so it is never listed. */
  lemma {:induction false} ZeroIsOwedItsMints(h: seq<Transfer>, nft: Nft)
    requires Lawful(h)
    ensures Outs(h, ZERO, nft) - Ins(h, ZERO, nft) == if OwnerOf(h, nft) == ZERO then 0 else 1
  {
    if h != [] { ZeroIsOwedItsMints(h[..|h| - 1], nft); }
  }

  lemma {:induction false} CountedIsReceived(h: seq<Transfer>, who: Address, nft: Nft)
    ensures Ins(h, who, nft) > 0 ==> nft in Received(h, who)
  {
    if h != [] {
      var before, last := h[..|h| - 1], h[|h| - 1];
      CountedIsReceived(before, who, nft);
      assert h == before + [last] && last in h;
      assert forall t :: t in before ==> t in h;
    }
  }

  /**
   Without filters, the query returns exactly the tokens the address owns, once each,
   by contract and then by id; with one, those of them that pass it.
   */
  lemma OwnedByIsOwnership(h: seq<Transfer>, who: Address, tokens: Tokens, onlyTrusted: bool, excludeSpam: bool)
    requires Lawful(h) && who != ZERO
    ensures var owned := OwnedBy(h, who, tokens, onlyTrusted, excludeSpam);
            && (forall n :: n in owned <==>
                  && OwnerOf(h, n) == who
                  && (onlyTrusted ==> n.token in tokens.trusted)
                  && (excludeSpam && !onlyTrusted ==> n.token !in tokens.spam))
            && Ascending(owned, BY_TOKEN_THEN_ID)
            && forall i, j :: 0 <= i < j < |owned| ==> owned[i] != owned[j]
  {
    NftOrderIsStrict();
    var owned := OwnedBy(h, who, tokens, onlyTrusted, excludeSpam);
    forall n
      ensures n in owned <==> OwnerOf(h, n) == who && Passes(tokens, n, onlyTrusted, excludeSpam)
    {
      CountsTellTheOwner(h, who, n);
      CountedIsReceived(h, who, n);
    }
    forall i, j | 0 <= i < j < |owned|
      ensures owned[i] != owned[j]
    {
      AscendingIsDistinct(owned, BY_TOKEN_THEN_ID, i, j);
    }
  }

  // ---------------------------------------------------------- what the service can see

  /** The transfers the service stored: those that touch one address. */
  function Touching(h: seq<Transfer>, who: Address): seq<Transfer> {
    if h == [] then []
    else Touching(h[..|h| - 1], who) +
         (if h[|h| - 1].from == who || h[|h| - 1].to == who then [h[|h| - 1]] else [])
  }

  lemma CountsOfAppend(h: seq<Transfer>, t: Transfer, who: Address, nft: Nft)
    ensures Ins(h + [t], who, nft) == Ins(h, who, nft) + (if t.nft == nft && CameIn(t, who) then 1 else 0)
    ensures Outs(h + [t], who, nft) == Outs(h, who, nft) + (if t.nft == nft && WentOut(t, who) then 1 else 0)
  {
    assert (h + [t])[..|h|] == h;
  }

  lemma TouchingAppend(h: seq<Transfer>, t: Transfer, who: Address)
    ensures Touching(h + [t], who) == if t.from == who || t.to == who then Touching(h, who) + [t] else Touching(h, who)
  {
    assert (h + [t])[..|h|] == h;
  }

  /** Transfers between others do not count, so a partial history that has the address's own is enough. */
  lemma {:induction false} OwnTransfersSuffice(h: seq<Transfer>, who: Address, nft: Nft)
    ensures Ins(Touching(h, who), who, nft) == Ins(h, who, nft)
    ensures Outs(Touching(h, who), who, nft) == Outs(h, who, nft)
  {
    if h == [] { return; }
    var before, last := h[..|h| - 1], h[|h| - 1];
    OwnTransfersSuffice(before, who, nft);
    assert h == before + [last];
    TouchingAppend(before, last, who);
    CountsOfAppend(before, last, who, nft);
    CountsOfAppend(Touching(before, who), last, who, nft);
  }

  function Without(h: seq<Transfer>, j: nat): seq<Transfer>
    requires j < |h|
  {
    h[..j] + h[j + 1..]
  }

  lemma {:induction false} CountsWithout(h: seq<Transfer>, j: nat, who: Address, nft: Nft)
    requires j < |h|
    ensures Ins(h, who, nft) == Ins(Without(h, j), who, nft) + (if h[j].nft == nft && CameIn(h[j], who) then 1 else 0)
    ensures Outs(h, who, nft)
         == Outs(Without(h, j), who, nft) + (if h[j].nft == nft && WentOut(h[j], who) then 1 else 0)
  {
    var n := |h| - 1;
    if j < n {
      CountsWithout(h[..n], j, who, nft);
      assert Without(h, j)[..n - 1] == Without(h[..n], j);
    } else {
      assert Without(h, j) == h[..n];
    }
  }

  lemma WithoutOne(h: seq<Transfer>, j: nat)
    requires j < |h|
    ensures multiset(Without(h, j)) == multiset(h) - multiset{h[j]}
  {
    assert h == h[..j] + [h[j]] + h[j + 1..];
  }

  lemma TakeOut(h: seq<Transfer>, h': seq<Transfer>) returns (j: nat)
    requires multiset(h) == multiset(h') && h != []
    ensures j < |h'| && h'[j] == h[|h| - 1]
    ensures multiset(Without(h', j)) == multiset(h[..|h| - 1])
  {
    var n := |h| - 1;
    assert h[n] in multiset(h');
    j :| 0 <= j < |h'| && h'[j] == h[n];
    WithoutOne(h', j);
    WithoutOne(h, n);
    assert Without(h, n) == h[..n];
  }

  /** The rows may be stored in any order: the counts depend only on which transfers there are. */
  lemma {:induction false} CountsIgnoreOrder(h: seq<Transfer>, h': seq<Transfer>, who: Address, nft: Nft)
    requires multiset(h) == multiset(h')
    ensures Ins(h, who, nft) == Ins(h', who, nft) && Outs(h, who, nft) == Outs(h', who, nft)
    decreases |h|
  {
    assert |multiset(h)| == |h| && |multiset(h')| == |h'|;
    if h != [] {
      var j := TakeOut(h, h');
      CountsWithout(h', j, who, nft);
      CountsWithout(h, |h| - 1, who, nft);
      assert Without(h, |h| - 1) == h[..|h| - 1];
      CountsIgnoreOrder(h[..|h| - 1], Without(h', j), who, nft);
    }
  }
}
