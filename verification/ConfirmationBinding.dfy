/**
 Binding confirmations to transactions: either may be created first, and whichever
 comes second finds the other by hash.
 */
module ConfirmationBinding {
  import opened Options

  type Hash = nat

  type Id = nat

  /** `hash` is what the confirmation was signed for; `bound` is its foreign key. */
  datatype Confirmation = Confirmation(hash: Option<Hash>, bound: Option<Hash>, created: nat)

  datatype Transaction = Transaction(trusted: bool, modified: nat)

  datatype Db = Db(txs: map<Hash, Transaction>, confirmations: map<Id, Confirmation>)

  datatype Creation =
    | NewTx(hash: Hash, trusted: bool, at: nat)
    | NewConfirmation(id: Id, signed: Option<Hash>, bound: Option<Hash>, at: nat)

  // --------------------------------------------------------------- what a creation does

  /** Confirmations that wait for the transaction. */
  function Waiting(db: Db, hash: Hash): set<Id> {
    set id | id in db.confirmations && db.confirmations[id].bound.None? && db.confirmations[id].hash == Some(hash)
  }

  function Bind(confirmations: map<Id, Confirmation>, ids: set<Id>, hash: Hash): map<Id, Confirmation> {
    map id | id in confirmations ::
      if id in ids then confirmations[id].(bound := Some(hash)) else confirmations[id]
  }

  function Apply(db: Db, c: Creation): Db {
    match c
    case NewTx(hash, trusted, at) =>
      var ids := Waiting(db, hash);
      Db(db.txs[hash := Transaction(trusted || ids != {}, at)], Bind(db.confirmations, ids, hash))
    case NewConfirmation(id, hash, bound, at) =>
      var found := hash.Some? && hash.value in db.txs;
      Db(if found then db.txs[hash.value := Transaction(true, at)] else db.txs,
         db.confirmations[id := Confirmation(hash, if bound.None? && found then hash else bound, at)])
  }

  /** Keys are unique, and a foreign key given at creation refers to a row. */
  predicate Possible(db: Db, c: Creation) {
    match c
    case NewTx(hash, _, _) => hash !in db.txs
    case NewConfirmation(id, _, bound, _) => id !in db.confirmations && (bound.Some? ==> bound.value in db.txs)
  }

  // ---------------------------------------------------------------------- the invariant

  /** Bound exactly when a transaction with that hash is there. */
  ghost predicate BoundByHash(db: Db) {
    forall id :: id in db.confirmations ==>
      var c := db.confirmations[id];
      c.bound == if c.hash.Some? && c.hash.value in db.txs then c.hash else None
  }

  ghost predicate BoundIsTrusted(db: Db) {
    forall id :: id in db.confirmations ==>
      var c := db.confirmations[id];
      c.bound.Some? ==> c.bound.value in db.txs && db.txs[c.bound.value].trusted
  }

  /** Created unbound, or bound to the transaction it was signed for. */
  predicate Straight(c: Creation) { c.NewConfirmation? && c.bound.Some? ==> c.bound == c.signed }

  /** One creation keeps the binding rule exactly when it does not bring a binding of its own to another transaction. */
  lemma CreationKeepsBindingExactlyWhen(db: Db, c: Creation)
    requires BoundByHash(db) && Possible(db, c)
    ensures BoundByHash(Apply(db, c)) <==> Straight(c)
  {
    var after := Apply(db, c);
    if c.NewConfirmation? {
      assert after.confirmations[c.id].hash == c.signed;
      forall id | id in db.confirmations
        ensures after.confirmations[id] == db.confirmations[id]
      {
      }
    }
  }

  /**
   Every transaction with a bound confirmation stays trusted, unless a confirmation
   arrives already bound to one transaction under another's hash, or under none, and
   its transaction is not trusted yet: the handler looks the transaction up by hash.
   */
  lemma CreationKeepsTrustExactlyWhen(db: Db, c: Creation)
    requires BoundIsTrusted(db) && Possible(db, c)
    ensures BoundIsTrusted(Apply(db, c)) <==> (Straight(c) || db.txs[c.bound.value].trusted)
  {
    var after := Apply(db, c);
    if c.NewConfirmation? {
      assert c.id in after.confirmations;
      assert forall id :: id in db.confirmations ==> after.confirmations[id] == db.confirmations[id];
    }
  }

  /** A transaction indexed untrusted, and a confirmation that comes bound to it under no hash. */
  const UNTRUSTED: Creation := NewTx(1, false, 5)
  const PREBOUND: Creation := NewConfirmation(0, None, Some(1), 6)

  lemma PreboundConfirmationIsNotTrusted()
    ensures var empty := Db(map[], map[]);
            var db := Apply(empty, UNTRUSTED);
            && Possible(empty, UNTRUSTED) && Possible(db, PREBOUND)
            && BoundByHash(db) && BoundIsTrusted(db)
            && !BoundByHash(Apply(db, PREBOUND)) && !BoundIsTrusted(Apply(db, PREBOUND))
            && Apply(db, PREBOUND).confirmations[0].bound == Some(1) && !Apply(db, PREBOUND).txs[1].trusted
  {
    var db := Apply(Db(map[], map[]), UNTRUSTED);
    assert Waiting(Db(map[], map[]), 1) == {};
    CreationKeepsBindingExactlyWhen(db, PREBOUND);
    CreationKeepsTrustExactlyWhen(db, PREBOUND);
  }

  // ------------------------------------------------------------------- whole histories

  function Run(cs: seq<Creation>): Db {
    if cs == [] then Db(map[], map[]) else Apply(Run(cs[..|cs| - 1]), cs[|cs| - 1])
  }

  ghost predicate AllPossible(cs: seq<Creation>) {
    cs == [] || (AllPossible(cs[..|cs| - 1]) && Possible(Run(cs[..|cs| - 1]), cs[|cs| - 1]))
  }

  ghost predicate AllStraight(cs: seq<Creation>) { forall c :: c in cs ==> Straight(c) }

  ghost predicate TxCreated(cs: seq<Creation>, hash: Hash) { exists c :: c in cs && c.NewTx? && c.hash == hash }

  ghost predicate BornTrusted(cs: seq<Creation>, hash: Hash) {
    exists c :: c in cs && c.NewTx? && c.hash == hash && c.trusted
  }

  ghost predicate Confirmed(cs: seq<Creation>, hash: Hash) {
    exists c :: c in cs && c.NewConfirmation? && c.signed == Some(hash)
  }

  ghost predicate Signed(cs: seq<Creation>, id: Id, hash: Option<Hash>) {
    exists c :: c in cs && c.NewConfirmation? && c.id == id && c.signed == hash
  }

  /**
   What a history leaves, told from its elements alone: which transactions, which of them
   trusted, and each binding.
   */
  ghost predicate Tells(cs: seq<Creation>, db: Db) {
    && (forall h :: h in db.txs <==> TxCreated(cs, h))
    && (forall h :: h in db.txs ==> (db.txs[h].trusted <==> BornTrusted(cs, h) || Confirmed(cs, h)))
    && (forall id :: id in db.confirmations ==> Signed(cs, id, db.confirmations[id].hash))
    && (forall id, h :: Signed(cs, id, h) ==> id in db.confirmations && db.confirmations[id].hash == h)
    && BoundByHash(db)
  }

  lemma Grow(cs: seq<Creation>, c: Creation, hash: Hash, id: Id, h: Option<Hash>)
    ensures TxCreated(cs + [c], hash) <==> TxCreated(cs, hash) || (c.NewTx? && c.hash == hash)
    ensures BornTrusted(cs + [c], hash) <==> BornTrusted(cs, hash) || (c.NewTx? && c.hash == hash && c.trusted)
    ensures Confirmed(cs + [c], hash) <==> Confirmed(cs, hash) || (c.NewConfirmation? && c.signed == Some(hash))
    ensures Signed(cs + [c], id, h) <==> Signed(cs, id, h) || (c.NewConfirmation? && c.id == id && c.signed == h)
  {
    assert forall x :: x in cs + [c] <==> x in cs || x == c;
  }

  lemma StepTells(cs: seq<Creation>, db: Db, c: Creation)
    requires Tells(cs, db) && Possible(db, c) && Straight(c)
    ensures Tells(cs + [c], Apply(db, c))
  {
    var after := Apply(db, c);
    CreationKeepsBindingExactlyWhen(db, c);
    forall h
      ensures h in after.txs <==> TxCreated(cs + [c], h)
      ensures h in after.txs ==> (after.txs[h].trusted <==> BornTrusted(cs + [c], h) || Confirmed(cs + [c], h))
    {
      Grow(cs, c, h, 0, None);
      WaitingMeansConfirmed(cs, db, h);
    }
    forall id: Id, h: Option<Hash>
      ensures Signed(cs + [c], id, h) <==> id in after.confirmations && after.confirmations[id].hash == h
    {
      Grow(cs, c, 0, id, h);
    }
  }

  /** The confirmations that wait for an absent transaction are all those signed for it. */
  lemma WaitingMeansConfirmed(cs: seq<Creation>, db: Db, hash: Hash)
    requires Tells(cs, db)
    ensures hash !in db.txs ==> (Waiting(db, hash) != {} <==> Confirmed(cs, hash))
    ensures hash !in db.txs ==> !BornTrusted(cs, hash)
  {
    if hash !in db.txs {
      assert !TxCreated(cs, hash);
      if Confirmed(cs, hash) {
        var c :| c in cs && c.NewConfirmation? && c.signed == Some(hash);
        assert Signed(cs, c.id, Some(hash));
        assert c.id in Waiting(db, hash);
      }
      if Waiting(db, hash) != {} {
        var id :| id in Waiting(db, hash);
        assert Signed(cs, id, Some(hash));
      }
    }
  }

  lemma {:induction false} HistoryTells(cs: seq<Creation>)
    requires AllPossible(cs) && AllStraight(cs)
    ensures Tells(cs, Run(cs))
  {
    if cs != [] {
      var before, c := cs[..|cs| - 1], cs[|cs| - 1];
      assert cs == before + [c];
      HistoryTells(before);
      StepTells(before, Run(before), c);
    }
  }

  /** After any history every bound confirmation's transaction is trusted. */
  lemma BoundTransactionsAreTrusted(cs: seq<Creation>)
    requires AllPossible(cs) && AllStraight(cs)
    ensures BoundByHash(Run(cs)) && BoundIsTrusted(Run(cs))
  {
    HistoryTells(cs);
    var db := Run(cs);
    forall id | id in db.confirmations && db.confirmations[id].bound.Some?
      ensures db.txs[db.confirmations[id].bound.value].trusted
    {
      assert Signed(cs, id, db.confirmations[id].hash);
    }
  }

  /** The creation of the transaction itself, or of a confirmation signed for it. */
  predicate Names(c: Creation, hash: Hash) {
    match c
    case NewTx(h, _, _) => h == hash
    case NewConfirmation(_, signed, _, _) => signed == Some(hash)
  }

  /** A creation touches the transaction it names and no other, and of the earlier confirmations only bindings. */
  lemma CreationTouches(db: Db, c: Creation, hash: Hash, id: Id)
    requires Possible(db, c)
    ensures var after := Apply(db, c);
            && (hash in db.txs && !Names(c, hash) ==> hash in after.txs && after.txs[hash] == db.txs[hash])
            && (hash in after.txs && Names(c, hash) ==> after.txs[hash].modified == c.at)
            && (id in db.confirmations ==>
                  && id in after.confirmations
                  && after.confirmations[id].hash == db.confirmations[id].hash
                  && after.confirmations[id].created == db.confirmations[id].created)
            && (c.NewConfirmation? ==> c.id in after.confirmations && after.confirmations[c.id].created == c.at)
  {
  }

  /** Over a history, a transaction was last modified by the last creation that names it. */
  lemma {:induction false} ModifiedByTheLastThatNamesIt(cs: seq<Creation>, hash: Hash) returns (i: nat)
    requires AllPossible(cs) && hash in Run(cs).txs
    ensures i < |cs| && Names(cs[i], hash) && Run(cs).txs[hash].modified == cs[i].at
    ensures forall j :: i < j < |cs| ==> !Names(cs[j], hash)
  {
    var before, last := cs[..|cs| - 1], cs[|cs| - 1];
    CreationTouches(Run(before), last, hash, 0);
    if Names(last, hash) {
      i := |cs| - 1;
    } else {
      i := ModifiedByTheLastThatNamesIt(before, hash);
      assert forall j :: 0 <= j < |before| ==> cs[j] == before[j];
    }
  }

  lemma SameCreations(cs: seq<Creation>, cs': seq<Creation>)
    requires multiset(cs) == multiset(cs')
    ensures forall c :: c in cs <==> c in cs'
  {
    forall c
      ensures c in cs <==> c in cs'
    {
      assert c in cs <==> c in multiset(cs);
      assert c in cs' <==> c in multiset(cs');
    }
  }

  /** The same transactions, equally trusted, and the same bindings. */
  ghost predicate SameOutcome(db: Db, db': Db) {
    && db.txs.Keys == db'.txs.Keys && (forall h :: h in db.txs ==> db.txs[h].trusted == db'.txs[h].trusted)
    && db.confirmations.Keys == db'.confirmations.Keys
    && (forall id :: id in db.confirmations ==> db.confirmations[id].hash == db'.confirmations[id].hash)
    && (forall id :: id in db.confirmations ==> db.confirmations[id].bound == db'.confirmations[id].bound)
  }

  lemma SameElementsTellTheSame(cs: seq<Creation>, cs': seq<Creation>, db: Db, db': Db)
    requires Tells(cs, db) && Tells(cs', db') && forall c :: c in cs <==> c in cs'
    ensures SameOutcome(db, db')
  {
    forall h
      ensures TxCreated(cs, h) <==> TxCreated(cs', h)
      ensures BornTrusted(cs, h) <==> BornTrusted(cs', h)
      ensures Confirmed(cs, h) <==> Confirmed(cs', h)
    {
    }
    forall id: Id, h: Option<Hash>
      ensures Signed(cs, id, h) <==> Signed(cs', id, h)
    {
    }
    assert db.txs.Keys == db'.txs.Keys;
    forall id
      ensures id in db.confirmations <==> id in db'.confirmations
      ensures id in db.confirmations ==> db.confirmations[id].hash == db'.confirmations[id].hash
    {
      if id in db.confirmations { assert Signed(cs', id, db.confirmations[id].hash); }
      if id in db'.confirmations { assert Signed(cs, id, db'.confirmations[id].hash); }
    }
  }

  /** Permuting the creations leaves the same bindings and the same trust. */
  lemma OrderDoesNotMatter(cs: seq<Creation>, cs': seq<Creation>)
    requires multiset(cs) == multiset(cs')
    requires AllPossible(cs) && AllStraight(cs) && AllPossible(cs') && AllStraight(cs')
    ensures SameOutcome(Run(cs), Run(cs'))
  {
    HistoryTells(cs);
    HistoryTells(cs');
    SameCreations(cs, cs');
    SameElementsTellTheSame(cs, cs', Run(cs), Run(cs'));
  }

  // ------------------------------------------------------------------ the code itself

  /** The two tables and the post-save handler. */
  class Tables {
    var txs: map<Hash, Transaction>
    var confirmations: map<Id, Confirmation>

    constructor ()
      ensures Value() == Db(map[], map[])
    {
      txs, confirmations := map[], map[];
    }

    ghost function Value(): Db
      reads this
    {
      Db(txs, confirmations)
    }

    method CreateTransaction(hash: Hash, trusted: bool, at: nat)
      requires Possible(Value(), NewTx(hash, trusted, at))
      modifies this
      ensures Value() == Apply(old(Value()), NewTx(hash, trusted, at))
    {
      txs := txs[hash := Transaction(trusted, at)];
      var waiting := set id | id in confirmations &&
                                confirmations[id].bound.None? && confirmations[id].hash == Some(hash);
      confirmations := Bind(confirmations, waiting, hash);
      if waiting != {} { txs := txs[hash := Transaction(true, at)]; }
    }

    method CreateConfirmation(id: Id, hash: Option<Hash>, bound: Option<Hash>, at: nat)
      requires Possible(Value(), NewConfirmation(id, hash, bound, at))
      modifies this
      ensures Value() == Apply(old(Value()), NewConfirmation(id, hash, bound, at))
    {
      confirmations := confirmations[id := Confirmation(hash, bound, at)];
      if bound.Some? {
        if hash.Some? && hash.value in txs { txs := txs[hash.value := Transaction(true, at)]; }
      } else if hash.Some? && hash.value in txs {
        txs := txs[hash.value := Transaction(true, at)];
        confirmations := confirmations[id := Confirmation(hash, hash, at)];
      }
    }
  }
}
