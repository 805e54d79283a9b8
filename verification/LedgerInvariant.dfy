/** What every committed ledger satisfies, and why posting a movement keeps it. */
module LedgerInvariant {
  import opened Base
  import opened Serial

  // ---------- Shape of the history ----------

  /** Transaction i owns rows 2i (its debit) and 2i + 1 (its credit) of the entries. */
  predicate Paired(l: Ledger, i: nat) {
    && i < |l.headers| && 2 * i + 1 < |l.entries|
    && var h, d, c := l.headers[i], l.entries[2 * i], l.entries[2 * i + 1];
    && d == Entry(h.id, d.account, Debit, d.amount)
    && c == Entry(h.id, c.account, Credit, d.amount)
    && d.amount > 0 && Fits(d.amount)
    && d.account in l.accounts && c.account in l.accounts && d.account != c.account
  }

  /** Transaction i moves its amount back along transaction j. */
  predicate Undoes(l: Ledger, i: nat, j: nat) {
    && Paired(l, i) && Paired(l, j) && j < i
    && l.headers[i].reverses == Some(l.headers[j].id)
    && l.headers[j].kind == Transfer
    && l.entries[2 * i].account == l.entries[2 * j + 1].account
    && l.entries[2 * i + 1].account == l.entries[2 * j].account
    && l.entries[2 * i].amount == l.entries[2 * j].amount
  }

  /** The rules of transaction i's kind. */
  ghost predicate TxnOk(l: Ledger, i: nat) {
    && Paired(l, i)
    && match l.headers[i].kind
       case Transfer =>
         l.headers[i].reverses == None && l.entries[2 * i].account != EXTERNAL
             && l.entries[2 * i + 1].account != EXTERNAL
       case Deposit =>
         l.headers[i].reverses == None && l.entries[2 * i].account == EXTERNAL
       case Reversal =>
         exists j: nat :: Undoes(l, i, j)
       case Withdrawal =>
         false
  }

  predicate Unique(hs: seq<Header>) {
    forall i, j :: 0 <= i < j < |hs| ==>
      && hs[i].id != hs[j].id
      && hs[i].key != hs[j].key
      && (hs[i].reverses.Some? ==> hs[i].reverses != hs[j].reverses)
  }

  ghost predicate HistoryOk(l: Ledger) {
    && |l.entries| == 2 * |l.headers|
    && Unique(l.headers)
    && forall i: nat :: i < |l.headers| ==> TxnOk(l, i)
  }

  predicate AccountOk(l: Ledger, a: AccountId)
    requires a in l.accounts
  {
    && l.accounts[a].isSystem == (a == EXTERNAL)
    && l.accounts[a].balance == Net(l.entries, a)
    && Fits(l.accounts[a].balance)
    && (a != EXTERNAL ==> l.accounts[a].balance >= 0)
  }

  ghost predicate LedgerOk(l: Ledger) {
    && EXTERNAL in l.accounts
    && (forall a :: a in l.accounts ==> AccountOk(l, a))
    && Total(l.accounts) == 0
    && HistoryOk(l)
  }

  // ---------- Movements that may be posted ----------

  /** Transaction j is a committed transfer with the given id that `m` would undo. */
  predicate Mirrors(l: Ledger, m: Move, original: TxId, j: nat) {
    && Paired(l, j)
    && l.headers[j].id == original && l.headers[j].kind == Transfer
    && m.debit == l.entries[2 * j + 1].account
    && m.credit == l.entries[2 * j].account
    && m.amount == l.entries[2 * j].amount
  }

  /** A movement the service may settle on: what Transfer's and Deposit's own checks give,
      or, for a reversal, what a committed transfer says. */
  ghost predicate Sound(l: Ledger, m: Move) {
    match m.kind
    case Transfer =>
      m.amount > 0 && m.debit != m.credit && m.debit != EXTERNAL && m.credit != EXTERNAL && m.reverses == None
    case Deposit =>
      m.amount > 0 && m.debit == EXTERNAL && m.credit != EXTERNAL && m.reverses == None
    case Reversal =>
      m.reverses.Some? && exists j: nat :: Mirrors(l, m, m.reverses.value, j)
    case Withdrawal =>
      false
  }

  lemma SoundFacts(l: Ledger, m: Move)
    requires HistoryOk(l) && Sound(l, m)
    ensures m.amount > 0 && m.debit != m.credit && m.credit != EXTERNAL
    ensures (m.debit == EXTERNAL) == (m.kind == Deposit)
    ensures m.kind == Reversal ==> m.debit in l.accounts && m.credit in l.accounts && Fits(m.amount)
  {
    if m.kind == Reversal {
      var j: nat :| Mirrors(l, m, m.reverses.value, j);
      assert TxnOk(l, j);
    }
  }

  // ---------- Bounds: why nothing but a deposit can overflow ----------

  /** Conservation and user non-negativity bound any two user balances by EXTERNAL's debt. */
  lemma UsersBounded(l: Ledger, a: AccountId, b: AccountId)
    requires LedgerOk(l)
    requires a in l.accounts && a != EXTERNAL
    ensures l.accounts[a].balance <= -l.accounts[EXTERNAL].balance
    ensures b in l.accounts && b != EXTERNAL && b != a ==>
              l.accounts[a].balance + l.accounts[b].balance <= -l.accounts[EXTERNAL].balance
  {
    var rest := l.accounts - {EXTERNAL};
    TotalRemove(l.accounts, EXTERNAL);
    TotalRemove(rest, a);
    assert forall x :: x in rest ==> AccountOk(l, x) && rest[x] == l.accounts[x];
    TotalNonNegative(rest - {a});
    if b in rest - {a} {
      TotalRemove(rest - {a}, b);
      TotalNonNegative(rest - {a} - {b});
    }
  }

  /** A sound movement on existing accounts that passes the funds check meets no other
      obstacle than a deposit overflowing EXTERNAL, or an earlier reversal. */
  lemma OnlyDepositsOverflow(l: Ledger, m: Move)
    requires LedgerOk(l) && Sound(l, m)
    requires m.debit in l.accounts && m.credit in l.accounts
    requires m.kind != Deposit ==> l.accounts[m.debit].balance >= m.amount
    ensures var d, c := l.accounts[m.debit], l.accounts[m.credit];
            && (m.kind != Deposit ==> Fits(d.balance - m.amount))
            && Allowed(d, d.balance - m.amount)
            && (Fits(d.balance - m.amount) ==> Fits(c.balance + m.amount) && Fits(m.amount))
            && Allowed(c, c.balance + m.amount)
  {
    SoundFacts(l, m);
    assert AccountOk(l, m.debit) && AccountOk(l, m.credit) && AccountOk(l, EXTERNAL);
    UsersBounded(l, m.credit, m.debit);
  }

  // ---------- Posting keeps the invariant ----------

  /** What holds of a movement at the moment its transaction commits. */
  ghost predicate Postable(l: Ledger, m: Move, id: TxId) {
    && Sound(l, m)
    && m.debit in l.accounts && m.credit in l.accounts
    && (m.kind != Deposit ==> l.accounts[m.debit].balance >= m.amount)
    && Fits(l.accounts[m.debit].balance - m.amount)
    && FindKey(l.headers, m.key).None?
    && FindId(l.headers, id).None?
    && (m.reverses.Some? ==> !Reversed(l.headers, m.reverses.value))
  }

  /** Adding rows and accounts never changes what the old rows say. */
  predicate Extends(l: Ledger, n: Ledger) {
    && l.headers <= n.headers
    && l.entries <= n.entries
    && l.accounts.Keys <= n.accounts.Keys
  }

  lemma PairedStable(l: Ledger, n: Ledger, i: nat)
    requires Extends(l, n) && Paired(l, i)
    ensures Paired(n, i)
    ensures n.headers[i] == l.headers[i] && n.entries[2 * i] == l.entries[2 * i]
            && n.entries[2 * i + 1] == l.entries[2 * i + 1]
  {
  }

  lemma TxnStable(l: Ledger, n: Ledger, i: nat)
    requires Extends(l, n) && TxnOk(l, i)
    ensures TxnOk(n, i)
  {
    PairedStable(l, n, i);
    if l.headers[i].kind == Reversal {
      var j: nat :| Undoes(l, i, j);
      PairedStable(l, n, j);
      assert Undoes(n, i, j);
    }
  }

  lemma PostedHistory(l: Ledger, m: Move, id: TxId)
    requires LedgerOk(l) && Postable(l, m, id)
    ensures HistoryOk(Posted(l, m, id))
  {
    var n := Posted(l, m, id);
    var k := |l.headers|;
    SoundFacts(l, m);
    OnlyDepositsOverflow(l, m);
    assert Extends(l, n);
    assert n.entries[2 * k] == LegsOf(m, id)[0] && n.entries[2 * k + 1] == LegsOf(m, id)[1];
    assert Paired(n, k);
    forall i: nat | i < |n.headers| ensures TxnOk(n, i) {
      if i < k {
        TxnStable(l, n, i);
      } else if m.kind == Reversal {
        var j: nat :| Mirrors(l, m, m.reverses.value, j);
        PairedStable(l, n, j);
        assert Undoes(n, k, j);
      }
    }
    assert Unique(n.headers) by {
      forall i | 0 <= i < k
        ensures l.headers[i].id != id && l.headers[i].key != m.key
        ensures l.headers[i].reverses.Some? ==> l.headers[i].reverses != m.reverses
      {
        assert l.headers[i] in l.headers;
      }
    }
  }

  lemma PostedNet(l: Ledger, m: Move, id: TxId, a: AccountId)
    requires m.debit in l.accounts && m.credit in l.accounts && m.debit != m.credit
    ensures Net(Posted(l, m, id).entries, a) ==
            Net(l.entries, a) + if a == m.debit then -m.amount else if a == m.credit then m.amount else 0
  {
    var e, f := LegsOf(m, id)[0], LegsOf(m, id)[1];
    assert l.entries + LegsOf(m, id) == l.entries + [e] + [f];
    NetAppend(l.entries, e, a);
    NetAppend(l.entries + [e], f, a);
  }

  lemma PostedTotal(l: Ledger, m: Move, id: TxId)
    requires m.debit in l.accounts && m.credit in l.accounts && m.debit != m.credit
    ensures Total(Posted(l, m, id).accounts) == Total(l.accounts)
  {
    var d, c := l.accounts[m.debit], l.accounts[m.credit];
    var d', c' := d.(balance := d.balance - m.amount), c.(balance := c.balance + m.amount);
    var mid := l.accounts[m.debit := d'];
    TotalRemove(l.accounts, m.debit);
    TotalSet(l.accounts, m.debit, d');
    TotalRemove(mid, m.credit);
    TotalSet(mid, m.credit, c');
  }

  /** Committing a movement keeps the cached balances, conservation, signs, bounds and history. */
  lemma PostedLedger(l: Ledger, m: Move, id: TxId)
    requires LedgerOk(l) && Postable(l, m, id)
    ensures LedgerOk(Posted(l, m, id))
    ensures Extends(l, Posted(l, m, id))
  {
    var n := Posted(l, m, id);
    PostedHistory(l, m, id);
    SoundFacts(l, m);
    PostedTotal(l, m, id);
    OnlyDepositsOverflow(l, m);
    forall a | a in n.accounts ensures AccountOk(n, a) {
      assert AccountOk(l, a);
      PostedNet(l, m, id, a);
    }
  }

  /** So does opening an account. */
  lemma OpenedLedger(l: Ledger, a: AccountId)
    requires LedgerOk(l) && a !in l.accounts
    ensures var n := l.(accounts := l.accounts[a := Account(0, false)]);
            LedgerOk(n) && Extends(l, n)
  {
    var n := l.(accounts := l.accounts[a := Account(0, false)]);
    forall e | e in l.entries ensures e.account != a {
      var k: nat :| k < |l.entries| && l.entries[k] == e;
      RowOwner(l, k);
    }
    NetUntouched(l.entries, a);
    forall b | b in n.accounts ensures AccountOk(n, b) {
      if b != a { assert AccountOk(l, b); }
    }
    TotalSet(l.accounts, a, Account(0, false));
    assert l.accounts - {a} == l.accounts;
    forall i: nat | i < |n.headers| ensures TxnOk(n, i) {
      TxnStable(l, n, i);
    }
  }

  // ---------- Reading a transaction back ----------

  /** h is committed and legs are its two rows. */
  ghost predicate Recorded(l: Ledger, h: Header, legs: seq<Entry>) {
    exists i: nat :: RecordedAt(l, h, legs, i)
  }

  predicate RecordedAt(l: Ledger, h: Header, legs: seq<Entry>, i: nat) {
    Paired(l, i) && l.headers[i] == h && legs == [l.entries[2 * i], l.entries[2 * i + 1]]
  }

  lemma RecordedStable(l: Ledger, n: Ledger, h: Header, legs: seq<Entry>)
    requires Extends(l, n) && Recorded(l, h, legs)
    ensures Recorded(n, h, legs)
  {
    var i: nat :| RecordedAt(l, h, legs, i);
    PairedStable(l, n, i);
    assert RecordedAt(n, h, legs, i);
  }

  lemma RowOwner(l: Ledger, k: nat)
    requires HistoryOk(l) && k < |l.entries|
    ensures k / 2 < |l.headers| && l.entries[k].txId == l.headers[k / 2].id && l.entries[k].account in l.accounts
  {
    assert TxnOk(l, k / 2);
    assert k == 2 * (k / 2) || k == 2 * (k / 2) + 1;
  }

  /** The entries query for transaction i returns exactly its two legs. */
  lemma EntriesOfTxn(l: Ledger, i: nat)
    requires HistoryOk(l) && i < |l.headers|
    ensures 2 * i + 1 < |l.entries|
    ensures EntriesOf(l.entries, l.headers[i].id) == [l.entries[2 * i], l.entries[2 * i + 1]]
  {
    var id := l.headers[i].id;
    assert TxnOk(l, i);
    var before, legs, after := l.entries[..2 * i], [l.entries[2 * i], l.entries[2 * i + 1]], l.entries[2 * i + 2..];
    OtherOwners(l, i);
    EntriesOfMiddle(before, legs, after, id);
    assert l.entries == before + legs + after;
  }

  lemma OtherOwners(l: Ledger, i: nat)
    requires HistoryOk(l) && i < |l.headers|
    ensures 2 * i + 1 < |l.entries|
    ensures forall e :: e in l.entries[..2 * i] + l.entries[2 * i + 2..] ==> e.txId != l.headers[i].id
  {
    var others := l.entries[..2 * i] + l.entries[2 * i + 2..];
    forall k | 0 <= k < |others| ensures others[k].txId != l.headers[i].id {
      var j := if k < 2 * i then k else k + 2;
      assert others[k] == l.entries[j] && j / 2 != i;
      RowOwner(l, j);
    }
  }

  lemma EntriesOfMiddle(before: seq<Entry>, legs: seq<Entry>, after: seq<Entry>, id: TxId)
    requires forall e :: e in before + after ==> e.txId != id
    requires forall e :: e in legs ==> e.txId == id
    ensures EntriesOf(before + legs + after, id) == legs
  {
    assert forall e :: e in before ==> e in before + after;
    assert forall e :: e in after ==> e in before + after;
    EntriesOfConcat(before + legs, after, id);
    EntriesOfConcat(before, legs, id);
    EntriesOfNone(before, id);
    EntriesOfNone(after, id);
    EntriesOfAll(legs, id);
  }

  /** The same, as a replay and a Reverse fetch see it. */
  lemma ReadBack(l: Ledger, h: Header)
    requires HistoryOk(l) && h in l.headers
    ensures Recorded(l, h, EntriesOf(l.entries, h.id))
  {
    var i: nat :| i < |l.headers| && l.headers[i] == h;
    EntriesOfTxn(l, i);
    assert TxnOk(l, i);
    assert RecordedAt(l, h, EntriesOf(l.entries, h.id), i);
  }

  /** A header has one recorded pair of legs, the ones the entries query returns. */
  lemma RecordedUnique(l: Ledger, h: Header, legs: seq<Entry>)
    requires HistoryOk(l) && Recorded(l, h, legs)
    ensures h in l.headers && legs == EntriesOf(l.entries, h.id)
  {
    var i: nat :| RecordedAt(l, h, legs, i);
    assert l.headers[i] in l.headers;
    ReadBack(l, h);
    var j: nat :| RecordedAt(l, h, EntriesOf(l.entries, h.id), j);
    assert i == j;
  }

  lemma SameKeySameHeader(l: Ledger, h: Header, g: Header)
    requires HistoryOk(l) && h in l.headers && g in l.headers
    requires h.key == g.key || h.id == g.id
    ensures h == g
  {
    var i :| 0 <= i < |l.headers| && l.headers[i] == h;
    var j :| 0 <= j < |l.headers| && l.headers[j] == g;
    assert i == j;
  }

  /** Re-reading the original of a reversal yields the movement settled on earlier. */
  lemma MirrorIsCurrent(l: Ledger, m: Move, original: TxId)
    requires HistoryOk(l)
    requires exists j: nat :: Mirrors(l, m, original, j)
    ensures var r := FindId(l.headers, original);
            && r.Some? && r.value.kind == Transfer
            && var s := ScanLegs(EntriesOf(l.entries, r.value.id));
               m.debit == s.dst && m.credit == s.src && m.amount == s.amount
  {
    var j: nat :| Mirrors(l, m, original, j);
    assert l.headers[j] in l.headers;
    SameKeySameHeader(l, l.headers[j], FindId(l.headers, original).value);
    EntriesOfTxn(l, j);
    assert TxnOk(l, j);
    TwoLegs(l.entries[2 * j], l.entries[2 * j + 1]);
  }

  lemma TwoLegs(d: Entry, c: Entry)
    requires d.direction == Debit && c.direction == Credit
    ensures ScanLegs([d, c]) == Scanned(d.account, c.account, d.amount)
  {
    assert [d, c][..1] == [d];
    assert [d][..0] == [];
  }

  // ---------- The seed ----------

  lemma SeedStep(l: Ledger, who: AccountId, key: string, id: TxId)
    requires LedgerOk(l) && who in l.accounts && who != EXTERNAL
    requires Fits(l.accounts[EXTERNAL].balance - SEED_AMOUNT)
    requires forall h :: h in l.headers ==> h.key != key && h.id != id
    ensures LedgerOk(Posted(l, SeedMove(who, key), id))
  {
    PostedLedger(l, SeedMove(who, key), id);
  }

  function SeedAccounts(ext: int, x: int, y: int, z: int): map<AccountId, Account> {
    map[EXTERNAL := Account(ext, true), 2 := Account(x, false), 3 := Account(y, false), 4 := Account(z, false)]
  }

  lemma SeedShape(a: string, b: string, c: string, x: TxId, y: TxId, z: TxId, v: int)
    ensures var l := Ledger(SeedAccounts(0, 0, 0, 0), [], []);
            var l := Posted(l, Move(Deposit, EXTERNAL, 2, v, a, None), x);
            var l := Posted(l, Move(Deposit, EXTERNAL, 3, v, b, None), y);
            var l := Posted(l, Move(Deposit, EXTERNAL, 4, v, c, None), z);
            l.accounts == SeedAccounts(-3 * v, v, v, v)
  {
  }

  lemma ThreeDeposits(l0: Ledger, a: string, b: string, c: string)
    requires a != b && a != c && b != c && l0 == Ledger(SeedAccounts(0, 0, 0, 0), [], []) && LedgerOk(l0)
    ensures var l1 := Posted(l0, SeedMove(2, a), SEED_TX + 1);
            var l2 := Posted(l1, SeedMove(3, b), SEED_TX + 2);
            LedgerOk(Posted(l2, SeedMove(4, c), SEED_TX + 3))
  {
    var l1 := Posted(l0, SeedMove(2, a), SEED_TX + 1);
    SeedStep(l0, 2, a, SEED_TX + 1);
    SeedStep(l1, 3, b, SEED_TX + 2);
    SeedStep(Posted(l1, SeedMove(3, b), SEED_TX + 2), 4, c, SEED_TX + 3);
  }

  lemma SeedWithOk(a: string, b: string, c: string)
    requires a != b && a != c && b != c
    ensures LedgerOk(SeedWith(a, b, c))
  {
    var l0 := Ledger(SeedAccounts(0, 0, 0, 0), [], []);
    EmptyLedgerOk(l0);
    ThreeDeposits(l0, a, b, c);
    SeedIsDeposits(l0, a, b, c);
  }

  lemma EmptyLedgerOk(l: Ledger)
    requires l == Ledger(SeedAccounts(0, 0, 0, 0), [], [])
    ensures LedgerOk(l)
  {
    EmptyTotals();
  }

  lemma SeedIsDeposits(l0: Ledger, a: string, b: string, c: string)
    requires l0 == Ledger(SeedAccounts(0, 0, 0, 0), [], [])
    ensures var l1 := Posted(l0, SeedMove(2, a), SEED_TX + 1);
            var l2 := Posted(l1, SeedMove(3, b), SEED_TX + 2);
            Posted(l2, SeedMove(4, c), SEED_TX + 3) == SeedWith(a, b, c)
  {
    SeedShape(a, b, c, SEED_TX + 1, SEED_TX + 2, SEED_TX + 3, SEED_AMOUNT);
  }

  lemma SeedOk()
    ensures LedgerOk(Seed())
  {
    var a, b, c := "seed-deposit-alice-001", "seed-deposit-bob-001", "seed-deposit-charlie-001";
    assert |a| == 22 && |b| == 20 && |c| == 24;
    SeedWithOk(a, b, c);
  }

  lemma EmptyTotals()
    ensures Total(SeedAccounts(0, 0, 0, 0)) == 0
  {
    var m0: map<AccountId, Account> := map[];
    var m1 := m0[EXTERNAL := Account(0, true)];
    var m2 := m1[2 := Account(0, false)];
    var m3 := m2[3 := Account(0, false)];
    TotalSet(m0, EXTERNAL, Account(0, true));
    assert m0 - {EXTERNAL} == m0;
    TotalSet(m1, 2, Account(0, false));
    assert m1 - {2} == m1;
    TotalSet(m2, 3, Account(0, false));
    assert m2 - {3} == m2;
    TotalSet(m3, 4, Account(0, false));
    assert m3 - {4} == m3;
    assert m3[4 := Account(0, false)] == SeedAccounts(0, 0, 0, 0);
  }
}
