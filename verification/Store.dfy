/** The store package: committed tables, one open transaction, and the helpers the service
    calls inside it.  Any call may fail; `faults` counts those that did. */
module Store {
  import opened Base
  import opened Serial
  import opened Protocol

  datatype AccountRow = AccountRow(id: AccountId, balance: int, isSystem: bool)

  // ---------- Classifying unique violations ----------

  predicate OccursAt(s: string, sub: string, i: int) {
    0 <= i <= |s| - |sub| && s[i..i + |sub|] == sub
  }

  predicate Contains(s: string, sub: string) {
    exists i | 0 <= i <= |s| - |sub| :: OccursAt(s, sub, i)
  }

  /** containsSubstr: a plain scan. */
  method ContainsSubstr(s: string, sub: string) returns (found: bool)
    ensures found <==> Contains(s, sub)
  {
    if |sub| == 0 {
      assert OccursAt(s, sub, 0);
      return true;
    }
    var i := 0;
    while i + |sub| <= |s|
      invariant 0 <= i
      invariant forall k :: 0 <= k < i ==> !OccursAt(s, sub, k)
    {
      if s[i..i + |sub|] == sub {
        assert OccursAt(s, sub, i);
        return true;
      }
      i := i + 1;
    }
    return false;
  }

  /** InsertReversalTransaction's reading of a unique violation: the constraint's name when
      there is one, otherwise the detail text. */
  method ReversalConflict(constraint: string, detail: string) returns (e: Error)
    ensures e == AlreadyReversed <==>
            || constraint == "transactions_reverses_transaction_id_key"
            || (constraint != "transactions_idempotency_key_key" && Contains(detail, "reverses_transaction_id"))
    ensures e == AlreadyReversed || e == IdempotencyConflict
  {
    if constraint == "transactions_reverses_transaction_id_key" { return AlreadyReversed; }
    if constraint == "transactions_idempotency_key_key" { return IdempotencyConflict; }
    var hit := ContainsSubstr(detail, "reverses_transaction_id");
    if hit { return AlreadyReversed; }
    return IdempotencyConflict;
  }

  // ---------- Locked rows ----------

  predicate AscendingRows(rows: seq<AccountRow>) {
    forall i, j :: 0 <= i < j < |rows| ==> rows[i].id < rows[j].id
  }

  function RowOf(accounts: map<AccountId, Account>, a: AccountId): AccountRow
    requires a in accounts
  {
    AccountRow(a, accounts[a].balance, accounts[a].isSystem)
  }

  predicate HasRow(rows: seq<AccountRow>, a: AccountId) {
    exists i :: 0 <= i < |rows| && rows[i].id == a
  }

  predicate Exists(accounts: map<AccountId, Account>, row: AccountRow) {
    row.id in accounts && row == RowOf(accounts, row.id)
  }

  /** The rows of the existing ones among ids, each once, in ascending id order. */
  predicate Locked(accounts: map<AccountId, Account>, ids: seq<AccountId>, rows: seq<AccountRow>) {
    && AscendingRows(rows)
    && (forall i :: 0 <= i < |rows| ==> rows[i].id in ids && Exists(accounts, rows[i]))
    && (forall a :: a in ids && a in accounts ==> HasRow(rows, a))
  }

  lemma LockedPair(accounts: map<AccountId, Account>, a: AccountId, b: AccountId, rows: seq<AccountRow>)
    requires Locked(accounts, [a, b], rows)
    ensures |rows| == 2 <==> a != b && a in accounts && b in accounts
    ensures |rows| == 2 ==> {rows[0].id, rows[1].id} == {a, b} && Exists(accounts, rows[0]) && Exists(accounts, rows[1])
  {
    assert forall i :: 0 <= i < |rows| ==> rows[i].id == a || rows[i].id == b;
    TwoValues(rows, a, b);
    if a != b && a in accounts && b in accounts {
      assert HasRow(rows, a) && HasRow(rows, b);
    }
    if |rows| == 2 { Strictly(rows, 0, 1); }
  }

  lemma Strictly(rows: seq<AccountRow>, i: nat, j: nat)
    requires AscendingRows(rows) && i < j < |rows|
    ensures rows[i].id < rows[j].id
  {
  }

  lemma TwoValues(rows: seq<AccountRow>, a: AccountId, b: AccountId)
    requires AscendingRows(rows) && forall i :: 0 <= i < |rows| ==> rows[i].id == a || rows[i].id == b
    ensures |rows| <= 2
  {
    if |rows| >= 3 {
      Strictly(rows, 0, 1);
      Strictly(rows, 1, 2);
      assert false;
    }
  }

  class Database {
    // Committed.
    var accounts: map<AccountId, Account>
    var headers: seq<Header>
    var entries: seq<Entry>
    var audit: seq<AuditRow>
    // The open transaction.
    var open: bool
    var writes: map<AccountId, int>
    var newHeaders: seq<Header>
    var newEntries: seq<Entry>
    // How many queries have failed for a reason of their own.
    var faults: nat
    // How many times a transaction was asked for.
    var begins: nat

    constructor ()
      ensures Committed() == Seed() && audit == [] && !open && faults == 0 && begins == 0
    {
      accounts, headers, entries, audit := Seed().accounts, Seed().headers, Seed().entries, [];
      open, writes, newHeaders, newEntries, faults, begins := false, map[], [], [], 0, 0;
    }

    function Committed(): Ledger
      reads this
    {
      Ledger(accounts, headers, entries)
    }

    /** A query may fail at any time. */
    method Fault() returns (fails: bool)
      modifies this`faults
      ensures faults == old(faults) + if fails then 1 else 0
    {
      fails := *;
      if fails { faults := faults + 1; }
    }

    // ---------- WithTx ----------

    method Begin() returns (ok: bool)
      requires !open
      modifies this
      ensures Committed() == old(Committed()) && audit == old(audit)
      ensures open == ok && (ok ==> writes == map[] && newHeaders == [] && newEntries == [])
      ensures faults >= old(faults)
      ensures !ok ==> faults > old(faults)
      ensures begins == old(begins) + 1
    {
      begins := begins + 1;
      var fails := Fault();
      ok := !fails;
      if ok { open, writes, newHeaders, newEntries := true, map[], [], []; }
    }

    /** Commit runs the deferred trigger, then makes everything pending visible at once. */
    method Commit() returns (err: Option<Error>)
      requires open
      modifies this
      ensures audit == old(audit) && faults >= old(faults) && begins == old(begins)
      ensures err.None? ==>
                && !open && accounts == WriteAccounts(old(accounts), old(writes))
                && headers == old(headers) + old(newHeaders) && entries == old(entries) + old(newEntries)
      ensures err.Some? ==> open && Committed() == old(Committed())
      ensures err == Some(StoreFailure) ==> faults > old(faults)
      ensures err.None? ==> TriggerAccepts(old(entries) + old(newEntries), old(newEntries))
      ensures err.Some? && err != Some(StoreFailure) ==>
                err == Some(UnbalancedEntries) && !TriggerAccepts(old(entries) + old(newEntries), old(newEntries))
    {
      var fails := Fault();
      if fails { return Some(StoreFailure); }
      if !TriggerAccepts(entries + newEntries, newEntries) { return Some(UnbalancedEntries); }
      accounts := WriteAccounts(accounts, writes);
      headers := headers + newHeaders;
      entries := entries + newEntries;
      open := false;
      err := None;
    }

    method Rollback()
      modifies this
      ensures !open && Committed() == old(Committed()) && audit == old(audit) && faults == old(faults)
      ensures writes == map[] && newHeaders == [] && newEntries == [] && begins == old(begins)
    {
      open, writes, newHeaders, newEntries := false, map[], [], [];
    }

    // ---------- Inside the transaction ----------

    /** Sorts the ids, locks the rows that exist, and collects them. */
    method LockAccountsForUpdate(ids: seq<AccountId>) returns (rows: Option<seq<AccountRow>>)
      requires open
      modifies this`faults
      ensures faults >= old(faults)
      ensures rows.None? ==> faults > old(faults)
      ensures rows.Some? ==> Locked(accounts, ids, rows.value)
    {
      var fails := Fault();
      if fails { return None; }
      var found: seq<AccountRow> := [];
      var n := 0;
      while n < |ids|
        invariant 0 <= n <= |ids|
        invariant Locked(accounts, ids[..n], found)
        invariant faults == old(faults)
      {
        var a := ids[n];
        var k := 0;
        while k < |found| && found[k].id < a
          invariant 0 <= k <= |found|
          invariant forall i :: 0 <= i < k ==> found[i].id < a
        {
          k := k + 1;
        }
        if a in accounts && !(k < |found| && found[k].id == a) {
          LockOneMore(accounts, ids, n, found, k);
          found := found[..k] + [RowOf(accounts, a)] + found[k..];
        } else {
          LockNoMore(accounts, ids, n, found, k);
        }
        n := n + 1;
      }
      assert ids[..n] == ids;
      rows := Some(found);
    }

    /** UPDATE accounts SET balance. */
    method UpdateBalance(id: AccountId, balance: int) returns (err: Option<Error>)
      requires open
      modifies this`writes, this`faults
      ensures faults >= old(faults)
      ensures err == Some(StoreFailure) ==> faults > old(faults)
      ensures err.None? ==>
                && writes == old(writes)[id := balance]
                && Fits(balance) && (id in accounts ==> Allowed(accounts[id], balance))
      ensures err == Some(NumericOverflow) <==> !Fits(balance) && err != Some(StoreFailure)
      ensures err == Some(CheckViolation) <==>
                Fits(balance) && id in accounts && !Allowed(accounts[id], balance) && err != Some(StoreFailure)
      ensures err.Some? ==> err.value in {StoreFailure, NumericOverflow, CheckViolation}
    {
      var fails := Fault();
      if fails { return Some(StoreFailure); }
      if !Fits(balance) { return Some(NumericOverflow); }
      if id in accounts && !Allowed(accounts[id], balance) { return Some(CheckViolation); }
      writes := writes[id := balance];
      err := None;
    }

    /** The header row, with the unique violations named as the service sees them. */
    method InsertHeader(h: Header) returns (err: Option<Error>)
      requires open && newHeaders == []
      modifies this`newHeaders, this`faults
      ensures faults >= old(faults)
      ensures err == Some(StoreFailure) ==> faults > old(faults)
      ensures err.None? ==>
                && newHeaders == [h] && FindKey(headers, h.key).None?
                && (h.reverses.Some? ==>
                      !Reversed(headers, h.reverses.value) && FindId(headers, h.reverses.value).Some?)
      ensures err == Some(IdempotencyConflict) <==> FindKey(headers, h.key).Some? && err != Some(StoreFailure)
      ensures err == Some(AlreadyReversed) <==>
                && FindKey(headers, h.key).None? && h.reverses.Some? && Reversed(headers, h.reverses.value)
                && err != Some(StoreFailure)
      ensures err.Some? && err.value !in {StoreFailure, IdempotencyConflict, AlreadyReversed} ==>
                err == Some(ForeignKeyViolation) && h.reverses.Some? && FindId(headers, h.reverses.value).None?
    {
      var fails := Fault();
      if fails { return Some(StoreFailure); }
      if FindKey(headers, h.key).Some? {
        if h.reverses.None? { return Some(IdempotencyConflict); }
        var e := ReversalConflict("transactions_idempotency_key_key", "");
        assert "transactions_idempotency_key_key"[13] != "transactions_reverses_transaction_id_key"[13];
        return Some(e);
      }
      if h.reverses.Some? && Reversed(headers, h.reverses.value) {
        var e := ReversalConflict("transactions_reverses_transaction_id_key", "");
        return Some(e);
      }
      if h.reverses.Some? && FindId(headers, h.reverses.value).None? { return Some(ForeignKeyViolation); }
      newHeaders := [h];
      err := None;
    }

    /** Checks every amount first, then inserts row by row. */
    method InsertEntries(es: seq<Entry>) returns (err: Option<Error>)
      requires open && newEntries == []
      modifies this`newEntries, this`faults
      ensures faults >= old(faults)
      ensures err == Some(StoreFailure) ==> faults > old(faults)
      ensures err.None? ==>
                && newEntries == es
                && forall i :: 0 <= i < |es| ==> es[i].amount > 0 && Fits(es[i].amount) && es[i].account in accounts
      ensures err.Some? ==> err.value in {StoreFailure, InvalidAmount, NumericOverflow, ForeignKeyViolation}
      ensures newEntries <= es
      ensures err == Some(InvalidAmount) ==> newEntries == []
      ensures err == Some(InvalidAmount) <==> exists i :: 0 <= i < |es| && es[i].amount <= 0
      ensures err == Some(NumericOverflow) ==> |newEntries| < |es| && !Fits(es[|newEntries|].amount)
      ensures err == Some(ForeignKeyViolation) ==>
                |newEntries| < |es| && Fits(es[|newEntries|].amount) && es[|newEntries|].account !in accounts
    {
      for i := 0 to |es|
        invariant forall k :: 0 <= k < i ==> es[k].amount > 0
      {
        if es[i].amount <= 0 { return Some(InvalidAmount); }
      }
      for i := 0 to |es|
        invariant newEntries == es[..i]
        invariant faults == old(faults)
        invariant forall k :: 0 <= k < i ==> Fits(es[k].amount) && es[k].account in accounts
      {
        var fails := Fault();
        if fails { return Some(StoreFailure); }
        if !Fits(es[i].amount) { return Some(NumericOverflow); }
        if es[i].account !in accounts { return Some(ForeignKeyViolation); }
        newEntries := newEntries + [es[i]];
        assert es[..i + 1] == es[..i] + [es[i]];
      }
      assert es[..|es|] == es;
      err := None;
    }

    // ---------- Outside any transaction ----------

    /** listEntries: the rows of one transaction, in insertion order. */
    method ListEntries(id: TxId) returns (r: Option<seq<Entry>>)
      modifies this`faults
      ensures faults >= old(faults)
      ensures r.None? ==> faults > old(faults)
      ensures r.Some? ==> r.value == EntriesOf(entries, id)
    {
      var fails := Fault();
      if fails { return None; }
      var rows: seq<Entry> := [];
      for i := 0 to |entries|
        invariant rows == EntriesOf(entries[..i], id)
        invariant faults == old(faults)
      {
        assert entries[..i + 1] == entries[..i] + [entries[i]];
        EntriesOfAppend(entries[..i], entries[i], id);
        if entries[i].txId == id { rows := rows + [entries[i]]; }
      }
      assert entries[..|entries|] == entries;
      r := Some(rows);
    }

    /** GetTransactionByIdempotencyKey: None for "not found" and for any failure alike. */
    method ByKey(key: string) returns (r: Option<(Header, seq<Entry>)>)
      modifies this`faults
      ensures faults >= old(faults)
      ensures r.Some? ==> FindKey(headers, key) == Some(r.value.0) && r.value.1 == EntriesOf(entries, r.value.0.id)
      ensures r.None? ==> FindKey(headers, key).None? || faults > old(faults)
    {
      var fails := Fault();
      if fails { return None; }
      var h := FindKey(headers, key);
      if h.None? { return None; }
      var legs := ListEntries(h.value.id);
      if legs.None? { return None; }
      r := Some((h.value, legs.value));
    }

    /** GetTransaction. */
    method ById(id: TxId) returns (r: Option<(Header, seq<Entry>)>, err: Error)
      modifies this`faults
      ensures faults >= old(faults)
      ensures r.Some? ==> FindId(headers, id) == Some(r.value.0) && r.value.1 == EntriesOf(entries, r.value.0.id)
      ensures r.None? ==>
                || (err == TransactionNotFound && FindId(headers, id).None?)
                || (err == StoreFailure && faults > old(faults))
    {
      var fails := Fault();
      if fails { return None, StoreFailure; }
      var h := FindId(headers, id);
      if h.None? { return None, TransactionNotFound; }
      var legs := ListEntries(h.value.id);
      if legs.None? { return None, StoreFailure; }
      r, err := Some((h.value, legs.value)), StoreFailure;
    }

    /** One audit row, on the pool; a failure is only logged. */
    method WriteAudit(row: AuditRow)
      modifies this`audit, this`faults
      ensures audit == old(audit) || audit == old(audit) + [row]
      ensures faults >= old(faults)
      ensures audit == old(audit) ==> faults > old(faults)
    {
      var fails := Fault();
      if !fails { audit := audit + [row]; }
    }
  }

  lemma AscendingInsert(found: seq<AccountRow>, k: nat, row: AccountRow)
    requires AscendingRows(found) && k <= |found|
    requires forall i :: 0 <= i < k ==> found[i].id < row.id
    requires k < |found| ==> row.id < found[k].id
    ensures AscendingRows(found[..k] + [row] + found[k..])
  {
    var more := found[..k] + [row] + found[k..];
    forall i, j | 0 <= i < j < |more| ensures more[i].id < more[j].id {
      assert i > k ==> more[i] == found[i - 1];
      assert j > k ==> more[j] == found[j - 1];
      assert k < |found| && j > k ==> row.id < found[j - 1].id;
    }
  }

  lemma InsertHasRow(found: seq<AccountRow>, k: nat, row: AccountRow, a: AccountId)
    requires k <= |found| && (a == row.id || HasRow(found, a))
    ensures HasRow(found[..k] + [row] + found[k..], a)
  {
    var more := found[..k] + [row] + found[k..];
    if a == row.id {
      assert more[k].id == a;
    } else {
      var i :| 0 <= i < |found| && found[i].id == a;
      assert more[if i < k then i else i + 1] == found[i];
    }
  }

  lemma LockOneMore(accounts: map<AccountId, Account>, ids: seq<AccountId>, n: nat, found: seq<AccountRow>, k: nat)
    requires n < |ids| && Locked(accounts, ids[..n], found) && ids[n] in accounts && k <= |found|
    requires forall i :: 0 <= i < k ==> found[i].id < ids[n]
    requires k < |found| ==> ids[n] < found[k].id
    ensures Locked(accounts, ids[..n + 1], found[..k] + [RowOf(accounts, ids[n])] + found[k..])
  {
    var row, some := RowOf(accounts, ids[n]), ids[..n];
    var more := found[..k] + [row] + found[k..];
    AscendingInsert(found, k, row);
    assert ids[..n + 1] == some + [ids[n]];
    forall i | 0 <= i < |more| ensures more[i].id in some + [ids[n]] && Exists(accounts, more[i]) {
      if i == k { assert more[i] == row; } else { assert more[i] == found[if i < k then i else i - 1]; }
    }
    forall a | a in some + [ids[n]] && a in accounts ensures HasRow(more, a) {
      InsertHasRow(found, k, row, a);
    }
  }

  lemma LockNoMore(accounts: map<AccountId, Account>, ids: seq<AccountId>, n: nat, found: seq<AccountRow>, k: nat)
    requires n < |ids| && Locked(accounts, ids[..n], found) && k <= |found|
    requires ids[n] !in accounts || (k < |found| && found[k].id == ids[n])
    ensures Locked(accounts, ids[..n + 1], found)
  {
    assert ids[..n + 1] == ids[..n] + [ids[n]];
  }
}
