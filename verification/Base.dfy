/** The ledger's tables as values, the lookups the store runs over them, and the sums the
    ledger's promises are about.  Amounts are whole numbers of 0.0001 units (see Money);
    account and transaction ids are the 128-bit UUID read as a number (see Uuid). */
module Base {

  datatype Option<+T> = None | Some(value: T)

  type AccountId = nat
  type TxId = nat

  /** 00000000-0000-0000-0000-000000000001, the one system account. */
  const EXTERNAL: AccountId := 1

  /** NUMERIC(20,4) holds sixteen digits before the point: 10^16 is 10^20 units. */
  const LIMIT: int := 100_000_000_000_000_000_000

  predicate Fits(units: int) {
    -LIMIT < units < LIMIT
  }

  datatype Kind = Transfer | Reversal | Deposit | Withdrawal

  datatype Direction = Debit | Credit

  datatype Account = Account(balance: int, isSystem: bool)

  datatype Header = Header(id: TxId, kind: Kind, key: string, reverses: Option<TxId>)

  datatype Entry = Entry(txId: TxId, account: AccountId, direction: Direction, amount: int)

  /** The committed rows of accounts, transactions and entries. */
  datatype Ledger = Ledger(accounts: map<AccountId, Account>, headers: seq<Header>, entries: seq<Entry>)

  /** The domain's sentinel errors, the database's own refusals, and StoreFailure for
      anything the network or a cancelled context can do to a query. */
  datatype Error =
    | InvalidAmount | SelfTransfer | SystemAccount
    | TransactionNotFound | NotReversible
    | AccountNotFound | InsufficientFunds
    | IdempotencyConflict | AlreadyReversed
    | CheckViolation | NumericOverflow | ForeignKeyViolation | UnbalancedEntries
    | StoreFailure

  datatype Outcome =
    | Ok(header: Header, legs: seq<Entry>)
    | Created(account: AccountId)
    | Err(error: Error)

  // ---------- Lookups ----------

  /** SELECT ... FROM transactions WHERE idempotency_key = key */
  function FindKey(hs: seq<Header>, key: string): (r: Option<Header>)
    ensures r.Some? ==> r.value in hs && r.value.key == key
    ensures r.None? ==> forall h :: h in hs ==> h.key != key
  {
    if hs == [] then None
    else if hs[|hs| - 1].key == key then Some(hs[|hs| - 1])
    else FindKey(hs[..|hs| - 1], key)
  }

  /** SELECT ... FROM transactions WHERE id = id */
  function FindId(hs: seq<Header>, id: TxId): (r: Option<Header>)
    ensures r.Some? ==> r.value in hs && r.value.id == id
    ensures r.None? ==> forall h :: h in hs ==> h.id != id
  {
    if hs == [] then None
    else if hs[|hs| - 1].id == id then Some(hs[|hs| - 1])
    else FindId(hs[..|hs| - 1], id)
  }

  /** Whether the UNIQUE index on reverses_transaction_id already holds `original`. */
  predicate Reversed(hs: seq<Header>, original: TxId) {
    exists h :: h in hs && h.reverses == Some(original)
  }

  /** SELECT ... FROM entries WHERE transaction_id = id ORDER BY id */
  function EntriesOf(es: seq<Entry>, id: TxId): (r: seq<Entry>)
    ensures forall e :: e in r ==> e in es && e.txId == id
  {
    if es == [] then []
    else EntriesOf(es[..|es| - 1], id) + if es[|es| - 1].txId == id then [es[|es| - 1]] else []
  }

  // ---------- Sums ----------

  /** CREDIT counts +amount, DEBIT counts -amount. */
  function Sign(e: Entry): int {
    if e.direction == Credit then e.amount else -e.amount
  }

  function Signed(es: seq<Entry>): int {
    if es == [] then 0 else Signed(es[..|es| - 1]) + Sign(es[|es| - 1])
  }

  /** Credits minus debits of one account: what its balance column caches. */
  function Net(es: seq<Entry>, a: AccountId): int {
    if es == [] then 0
    else Net(es[..|es| - 1], a) + if es[|es| - 1].account == a then Sign(es[|es| - 1]) else 0
  }

  /** The sum of all balances. */
  ghost function Total(m: map<AccountId, Account>): int {
    if m == map[] then 0
    else
      var a :| a in m;
      m[a].balance + Total(m - {a})
  }

  lemma {:induction false} EntriesOfAppend(es: seq<Entry>, e: Entry, id: TxId)
    ensures EntriesOf(es + [e], id) == EntriesOf(es, id) + if e.txId == id then [e] else []
  {
    assert (es + [e])[..|es|] == es;
  }

  lemma {:induction false} NetAppend(es: seq<Entry>, e: Entry, a: AccountId)
    ensures Net(es + [e], a) == Net(es, a) + if e.account == a then Sign(e) else 0
  {
    assert (es + [e])[..|es|] == es;
  }

  lemma {:induction false} SignedAppend(es: seq<Entry>, e: Entry)
    ensures Signed(es + [e]) == Signed(es) + Sign(e)
  {
    assert (es + [e])[..|es|] == es;
  }

  lemma {:induction false} NetConcat(es: seq<Entry>, fs: seq<Entry>, a: AccountId)
    ensures Net(es + fs, a) == Net(es, a) + Net(fs, a)
  {
    if fs == [] {
      assert es + fs == es;
    } else {
      assert (es + fs)[..|es + fs| - 1] == es + fs[..|fs| - 1];
      NetConcat(es, fs[..|fs| - 1], a);
    }
  }

  lemma {:induction false} NetUntouched(es: seq<Entry>, a: AccountId)
    requires forall e :: e in es ==> e.account != a
    ensures Net(es, a) == 0
  {
    if es != [] {
      NetUntouched(es[..|es| - 1], a);
    }
  }

  lemma {:induction false} EntriesOfNone(es: seq<Entry>, id: TxId)
    requires forall e :: e in es ==> e.txId != id
    ensures EntriesOf(es, id) == []
  {
    if es != [] {
      EntriesOfNone(es[..|es| - 1], id);
    }
  }

  lemma {:induction false} EntriesOfAll(es: seq<Entry>, id: TxId)
    requires forall e :: e in es ==> e.txId == id
    ensures EntriesOf(es, id) == es
  {
    if es != [] {
      var n := |es| - 1;
      assert es[n] in es && es == es[..n] + [es[n]];
      EntriesOfAll(es[..n], id);
    }
  }

  lemma {:induction false} EntriesOfConcat(es: seq<Entry>, fs: seq<Entry>, id: TxId)
    ensures EntriesOf(es + fs, id) == EntriesOf(es, id) + EntriesOf(fs, id)
  {
    if fs == [] {
      assert es + fs == es;
    } else {
      assert (es + fs)[..|es + fs| - 1] == es + fs[..|fs| - 1];
      EntriesOfConcat(es, fs[..|fs| - 1], id);
    }
  }

  lemma {:induction false} TotalRemove(m: map<AccountId, Account>, a: AccountId)
    requires a in m
    ensures Total(m) == m[a].balance + Total(m - {a})
    decreases |m|
  {
    var b :| b in m && Total(m) == m[b].balance + Total(m - {b});
    if a != b {
      TotalRemove(m - {b}, a);
      TotalRemove(m - {a}, b);
      assert m - {b} - {a} == m - {a} - {b};
    }
  }

  lemma TotalSet(m: map<AccountId, Account>, a: AccountId, v: Account)
    ensures Total(m[a := v]) == v.balance + Total(m - {a})
  {
    TotalRemove(m[a := v], a);
    assert m[a := v] - {a} == m - {a};
  }

  lemma {:induction false} TotalNonNegative(m: map<AccountId, Account>)
    requires forall a :: a in m ==> m[a].balance >= 0
    ensures Total(m) >= 0
    decreases |m|
  {
    if m != map[] {
      var b :| b in m && Total(m) == m[b].balance + Total(m - {b});
      TotalNonNegative(m - {b});
    }
  }

  lemma SubsetSize<T>(a: set<T>, b: set<T>)
    requires a <= b
    ensures |a| <= |b|
  {
    assert b == a + (b - a);
  }
}
