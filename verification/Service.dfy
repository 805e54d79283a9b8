/** The service package: Transfer, Reverse and Deposit in their own control flow, and why
    each of them, run alone, is one atomic call whatever its queries do. */
module Service {
  import opened Base
  import opened Serial
  import opened LedgerInvariant
  import opened Protocol
  import opened Invariant
  import opened Steps
  import opened Requests
  import opened Store
  import Guarantees

  /** What the transaction body has pending when it returns without an error. */
  predicate Pending(db: Database, m: Move, id: TxId)
    reads db
  {
    var l := db.Committed();
    && m.debit in l.accounts && m.credit in l.accounts
    && db.writes == map[m.debit := l.accounts[m.debit].balance - m.amount,
                        m.credit := l.accounts[m.credit].balance + m.amount]
    && db.newHeaders == [HeaderOf(m, id)] && db.newEntries == LegsOf(m, id)
  }

  lemma PendingIsPosted(l: Ledger, m: Move, id: TxId, writes: map<AccountId, int>)
    requires m.debit in l.accounts && m.credit in l.accounts && m.debit != m.credit
    requires writes == map[m.debit := l.accounts[m.debit].balance - m.amount,
                           m.credit := l.accounts[m.credit].balance + m.amount]
    ensures WriteAccounts(l.accounts, writes) == Posted(l, m, id).accounts
  {
  }

  lemma ObstacleFreeIsPostable(l: Ledger, m: Move, id: TxId)
    requires Sound(l, m) && Obstacle(l, m).None? && FindKey(l.headers, m.key).None? && FindId(l.headers, id).None?
    ensures Postable(l, m, id)
  {
  }

  lemma MirroredOriginal(l: Ledger, m: Move)
    requires Sound(l, m) && m.reverses.Some?
    ensures FindId(l.headers, m.reverses.value).Some?
  {
    var j: nat :| Mirrors(l, m, m.reverses.value, j);
    assert l.headers[j] in l.headers;
  }

  /** A posted transaction is found again by its key, with its legs. */
  lemma PostedReadsBack(l: Ledger, m: Move, id: TxId)
    requires LedgerOk(l) && Postable(l, m, id)
    ensures var n := Posted(l, m, id);
            FindKey(n.headers, m.key) == Some(HeaderOf(m, id)) && EntriesOf(n.entries, id) == LegsOf(m, id)
  {
    PostedHistory(l, m, id);
    PostedRecorded(l, m, id);
    Guarantees.RecordedReads(Posted(l, m, id), HeaderOf(m, id), LegsOf(m, id));
  }

  lemma NewlyPosted(l: Ledger, m: Move, id: TxId)
    requires LedgerOk(l) && Sound(l, m) && Obstacle(l, m).None? && FindKey(l.headers, m.key).None?
             && FindId(l.headers, id).None?
    ensures var n := Posted(l, m, id);
            && n != l && FindKey(n.headers, m.key) == Some(HeaderOf(m, id))
            && EntriesOf(n.entries, id) == LegsOf(m, id)
  {
    ObstacleFreeIsPostable(l, m, id);
    PostedReadsBack(l, m, id);
    assert |Posted(l, m, id).headers| == |l.headers| + 1;
  }

  /** Leg i is the last debit, or the last that is not one. */
  predicate LastOf(legs: seq<Entry>, debit: bool, i: int) {
    && 0 <= i < |legs| && (legs[i].direction == Debit) == debit
    && forall k :: i < k < |legs| ==> (legs[k].direction == Debit) != debit
  }

  /** The audit row says what the call returned, and about whom; `begun` is whether the call
      asked for a transaction. */
  predicate Reports(row: AuditRow, l: Ledger, r: Request, begun: bool, o: Outcome, id: TxId) {
    match o
    case Err(e) => row.result == Failed(e) && FailedFields(l, r, row, begun)
    case Ok(h, legs) =>
      && |legs| == 2 && h.id == id
      && row == AuditRow(row.writer, h.kind, Some(legs[0].account), Some(legs[1].account), Some(legs[0].amount),
                          Succeeded(id))
    case Created(_) => false
  }

  /** What every operation promises, run alone, from ledger l to n: its effect and result are
      the atomic call's unless a query failed; even then the ledger either did not change or
      changed exactly as the atomic call would; a returned transaction is committed under
      the request's key. */
  predicate Honest(l: Ledger, n: Ledger, faulted: bool, r: Request, id: TxId, o: Outcome) {
    && (!faulted ==> (n, o) == Atomic(l, r, id))
    && (n != l ==> (n, o) == Atomic(l, r, id))
    && (o.Err? ==> n == l)
    && (o.Ok? ==> FindKey(n.headers, Key(r)) == Some(o.header) && o.legs == EntriesOf(n.entries, o.header.id))
  }

  /** At most one audit row, and only one that matches the result; a success row only for a
      transaction this call committed itself. */
  predicate Audited(before: seq<AuditRow>, after: seq<AuditRow>, l: Ledger, r: Request, begun: bool, committed: bool,
                    o: Outcome, id: TxId) {
    || after == before
    || (|after| == |before| + 1 && after[..|before|] == before && Reports(after[|before|], l, r, begun, o, id)
        && (o.Ok? ==> committed))
  }

  lemma PostedIsHonest(l: Ledger, r: Request, m: Move, id: TxId, faulted: bool)
    requires LedgerOk(l) && Sound(l, m) && Obstacle(l, m).None? && FindKey(l.headers, m.key).None?
             && FindId(l.headers, id).None?
    requires !r.CreateReq? && m.key == r.key && Atomic(l, r, id) == Post(l, m, id)
    ensures Honest(l, Posted(l, m, id), faulted, r, id, Ok(HeaderOf(m, id), LegsOf(m, id))) && Posted(l, m, id) != l
  {
    NewlyPosted(l, m, id);
  }

  /** A call whose transaction failed with e, and which returned e or the key's holder. */
  lemma LostIsHonest(l: Ledger, r: Request, m: Move, id: TxId, faulted: bool, e: Error, o: Outcome)
    requires !r.CreateReq? && m.key == r.key
    requires !faulted ==> Atomic(l, r, id) == Post(l, m, id) && Obstacle(l, m) == Some(e)
    requires o == Err(e) || (e == IdempotencyConflict && o.Ok?)
    requires o.Ok? ==> FindKey(l.headers, m.key) == Some(o.header) && o.legs == EntriesOf(l.entries, o.header.id)
    ensures Honest(l, l, faulted, r, id, o)
  {
  }

  /** What the code after the transaction returns, given how the transaction ended. */
  predicate Finished(n: Ledger, m: Move, id: TxId, err: Option<Error>, o: Outcome) {
    match err
    case None => o == Ok(HeaderOf(m, id), LegsOf(m, id))
    case Some(e) =>
      && (o == Err(e) || (e == IdempotencyConflict && o.Ok?))
      && (o.Ok? ==> FindKey(n.headers, m.key) == Some(o.header) && o.legs == EntriesOf(n.entries, o.header.id))
  }

  lemma FinishedIsHonest(l: Ledger, n: Ledger, r: Request, m: Move, id: TxId, faulted: bool, err: Option<Error>,
                         o: Outcome)
    requires LedgerOk(l) && Sound(l, m) && FindId(l.headers, id).None? && !r.CreateReq? && m.key == r.key
    requires FindKey(l.headers, m.key).None? || faulted
    requires FindKey(l.headers, m.key).None? ==> Atomic(l, r, id) == Post(l, m, id)
    requires Finished(n, m, id, err, o)
    requires err.None? ==> Obstacle(l, m).None? && FindKey(l.headers, m.key).None? && n == Posted(l, m, id)
    requires err.Some? ==> n == l && (!faulted ==> err == Obstacle(l, m))
    ensures Honest(l, n, faulted, r, id, o) && (err.None? <==> n != l)
  {
    if err.None? { PostedIsHonest(l, r, m, id, faulted); } else { LostIsHonest(l, r, m, id, faulted, err.value, o); }
  }

  class Service {
    const db: Database

    constructor (db: Database)
      ensures this.db == db
    {
      this.db := db;
    }

    ghost predicate Ready()
      reads db
    {
      !db.open && LedgerOk(db.Committed())
    }

    /** The two account variables filled by the loop over the locked rows. */
    method PickRows(rows: seq<AccountRow>, debit: AccountId, credit: AccountId)
      returns (from: AccountRow, into: AccountRow)
      requires AscendingRows(rows)
      ensures forall k :: 0 <= k < |rows| && rows[k].id == debit ==> from == rows[k]
      ensures forall k :: 0 <= k < |rows| && rows[k].id == credit && credit != debit ==> into == rows[k]
    {
      from, into := AccountRow(0, 0, false), AccountRow(0, 0, false);
      for i := 0 to |rows|
        invariant forall k :: 0 <= k < i && rows[k].id == debit ==> from == rows[k]
        invariant forall k :: 0 <= k < i && rows[k].id == credit && credit != debit ==> into == rows[k]
      {
        if rows[i].id == debit { from := rows[i]; } else if rows[i].id == credit { into := rows[i]; }
      }
    }

    /** Lock both rows, find two, check the funds. */
    method LockAndCheck(m: Move) returns (err: Option<Error>, from: AccountRow, into: AccountRow)
      requires db.open
      modifies db`faults
      ensures db.faults >= old(db.faults)
      ensures err == Some(StoreFailure) ==> db.faults > old(db.faults)
      ensures err == Some(AccountNotFound) <==>
                (m.debit !in db.accounts || m.credit !in db.accounts || m.debit == m.credit)
                    && err != Some(StoreFailure)
      ensures err != Some(StoreFailure) && err != Some(AccountNotFound) ==>
                && from == RowOf(db.accounts, m.debit) && into == RowOf(db.accounts, m.credit)
                && err == if m.kind != Base.Deposit && from.balance < m.amount then Some(InsufficientFunds) else None
    {
      from, into := AccountRow(0, 0, false), AccountRow(0, 0, false);
      var locked := db.LockAccountsForUpdate([m.debit, m.credit]);
      if locked.None? { return Some(StoreFailure), from, into; }
      var rows := locked.value;
      LockedPair(db.accounts, m.debit, m.credit, rows);
      if |rows| != 2 { return Some(AccountNotFound), from, into; }
      from, into := PickRows(rows, m.debit, m.credit);
      assert rows[0].id in {m.debit, m.credit} && rows[1].id in {m.debit, m.credit};
      assert Exists(db.accounts, rows[0]) && Exists(db.accounts, rows[1]);
      if m.kind != Base.Deposit && from.balance < m.amount { return Some(InsufficientFunds), from, into; }
      err := None;
    }

    /** Lock, check, and the two UpdateBalance calls: debit first. */
    method MoveBalances(m: Move) returns (err: Option<Error>)
      requires db.open && db.writes == map[]
      modifies db`faults, db`writes
      ensures db.faults >= old(db.faults)
      ensures err == Some(StoreFailure) ==> db.faults > old(db.faults)
      ensures err != Some(StoreFailure) ==> err == BalanceObstacle(db.Committed(), m)
      ensures err.None? ==>
                && m.debit in db.accounts && m.credit in db.accounts
                && db.writes == map[m.debit := db.accounts[m.debit].balance - m.amount,
                                    m.credit := db.accounts[m.credit].balance + m.amount]
    {
      var from, into;
      err, from, into := LockAndCheck(m);
      if err.Some? { return; }
      err := db.UpdateBalance(m.debit, from.balance - m.amount);
      if err.Some? { return; }
      err := db.UpdateBalance(m.credit, into.balance + m.amount);
    }

    /** The header and the two legs. */
    method InsertRows(m: Move, id: TxId) returns (err: Option<Error>)
      requires db.open && db.newHeaders == [] && db.newEntries == []
      requires m.debit in db.accounts && m.credit in db.accounts
      requires m.reverses.Some? ==> FindId(db.headers, m.reverses.value).Some?
      modifies db`faults, db`newHeaders, db`newEntries
      ensures db.faults >= old(db.faults)
      ensures err == Some(StoreFailure) ==> db.faults > old(db.faults)
      ensures err == Some(IdempotencyConflict) <==> FindKey(db.headers, m.key).Some? && err != Some(StoreFailure)
      ensures FindKey(db.headers, m.key).None? && err != Some(StoreFailure) ==> err == RowObstacle(db.Committed(), m)
      ensures err.None? ==> db.newHeaders == [HeaderOf(m, id)] && db.newEntries == LegsOf(m, id)
    {
      err := db.InsertHeader(HeaderOf(m, id));
      if err.Some? { return; }
      assert LegsOf(m, id)[0].amount == m.amount && LegsOf(m, id)[1].amount == m.amount;
      err := db.InsertEntries(LegsOf(m, id));
    }

    /** COMMIT of a pending movement. */
    method CommitMove(m: Move, id: TxId) returns (err: Option<Error>)
      requires db.open && LedgerOk(db.Committed()) && Pending(db, m, id) && Postable(db.Committed(), m, id)
      modifies db
      ensures db.audit == old(db.audit) && db.faults >= old(db.faults) && db.begins == old(db.begins)
      ensures err.None? ==> !db.open && db.Committed() == Posted(old(db.Committed()), m, id) && LedgerOk(db.Committed())
      ensures err.Some? ==>
                && db.open && err == Some(StoreFailure) && db.faults > old(db.faults)
                && db.Committed() == old(db.Committed())
    {
      ghost var l := db.Committed();
      SoundFacts(l, m);
      LegsBalanced(l, m, id);
      PendingIsPosted(l, m, id, db.writes);
      PostedLedger(l, m, id);
      err := db.Commit();
    }

    /** The callback given to WithTx. */
    method Body(m: Move, id: TxId) returns (err: Option<Error>)
      requires db.open && db.writes == map[] && db.newHeaders == [] && db.newEntries == []
      requires m.reverses.Some? ==> FindId(db.headers, m.reverses.value).Some?
      modifies db`faults, db`writes, db`newHeaders, db`newEntries
      ensures db.faults >= old(db.faults)
      ensures err == Some(StoreFailure) ==> db.faults > old(db.faults)
      ensures err == Some(IdempotencyConflict) ==> FindKey(db.headers, m.key).Some?
      ensures err.None? ==> Obstacle(db.Committed(), m).None? && FindKey(db.headers, m.key).None? && Pending(db, m, id)
      ensures err != Some(StoreFailure) && FindKey(db.headers, m.key).None? ==> err == Obstacle(db.Committed(), m)
    {
      err := MoveBalances(m);
      if err.None? { err := InsertRows(m, id); }
    }

    /** WithTx around the callback: begin, run it, commit, or roll everything back. */
    method PostMove(m: Move, id: TxId) returns (err: Option<Error>)
      requires Ready() && Sound(db.Committed(), m) && FindId(db.headers, id).None?
      modifies db
      ensures Ready() && db.audit == old(db.audit) && db.begins == old(db.begins) + 1
      ensures db.faults >= old(db.faults)
      ensures err == Some(StoreFailure) ==> db.faults > old(db.faults)
      ensures err.None? ==>
                && Obstacle(old(db.Committed()), m).None? && FindKey(old(db.headers), m.key).None?
                && db.Committed() == Posted(old(db.Committed()), m, id)
      ensures err.Some? ==> db.Committed() == old(db.Committed())
      ensures err == Some(IdempotencyConflict) ==> FindKey(db.headers, m.key).Some?
      ensures db.faults == old(db.faults) && FindKey(old(db.headers), m.key).None? ==>
              err == Obstacle(old(db.Committed()), m)
    {
      ghost var l := db.Committed();
      if m.reverses.Some? { MirroredOriginal(l, m); }
      var began := db.Begin();
      if !began { return Some(StoreFailure); }
      err := Body(m, id);
      if err.None? {
        ObstacleFreeIsPostable(l, m, id);
        err := CommitMove(m, id);
      }
      if err.Some? { db.Rollback(); }
    }

    // ---------- The operations ----------

    /** Audit a failure and return it. */
    method Refuse(c: CallId, r: Request, op: Kind, about: Option<Move>, id: TxId, e: Error, ghost begun: bool)
      returns (o: Outcome)
      requires LedgerOk(db.Committed()) && KindOf(r) == Some(op) && AboutOk(db.Committed(), r, about)
      requires r.ReverseReq? ==> (about.Some? <==> begun)
      modifies db`audit, db`faults
      ensures o == Err(e) && Audited(old(db.audit), db.audit, db.Committed(), r, begun, false, o, id)
      ensures db.faults >= old(db.faults)
    {
      var row := Row(c, op, about, Failed(e));
      FailedRowSays(db.Committed(), r, about, row, e, begun);
      db.WriteAudit(row);
      o := Err(e);
    }

    /** A transaction that failed: replay the winner of a key race, otherwise audit and report. */
    method Lose(c: CallId, r: Request, m: Move, id: TxId, e: Error) returns (o: Outcome)
      requires LedgerOk(db.Committed()) && Settled(db.Committed(), r, m)
      modifies db`audit, db`faults
      ensures db.faults >= old(db.faults)
      ensures o == Err(e) || (e == IdempotencyConflict && o.Ok?)
      ensures o.Ok? ==> FindKey(db.headers, m.key) == Some(o.header) && o.legs == EntriesOf(db.entries, o.header.id)
      ensures Audited(old(db.audit), db.audit, db.Committed(), r, true, false, o, id)
    {
      if e == IdempotencyConflict {
        var found := db.ByKey(m.key);
        if found.Some? { return Ok(found.value.0, found.value.1); }
      }
      SettledSound(db.Committed(), r, m);
      o := Refuse(c, r, m.kind, Some(m), id, e, true);
    }

    /** A transaction that committed: audit the success and return it. */
    method Win(c: CallId, r: Request, m: Move, id: TxId) returns (o: Outcome)
      modifies db`audit, db`faults
      ensures db.faults >= old(db.faults)
      ensures o == Ok(HeaderOf(m, id), LegsOf(m, id))
      ensures Audited(old(db.audit), db.audit, db.Committed(), r, true, true, o, id)
    {
      o := Ok(HeaderOf(m, id), LegsOf(m, id));
      db.WriteAudit(Row(c, m.kind, Some(m), Succeeded(id)));
    }

    method Finish(c: CallId, r: Request, m: Move, id: TxId, err: Option<Error>) returns (o: Outcome)
      requires err.Some? ==> LedgerOk(db.Committed()) && Settled(db.Committed(), r, m)
      modifies db`audit, db`faults
      ensures db.faults >= old(db.faults)
      ensures Finished(db.Committed(), m, id, err, o)
      ensures Audited(old(db.audit), db.audit, db.Committed(), r, true, err.None?, o, id)
    {
      if err.Some? { o := Lose(c, r, m, id, err.value); } else { o := Win(c, r, m, id); }
    }

    /** Everything after the replay lookup: post, replay the winner on a key conflict, audit. */
    method Settle(c: CallId, r: Request, m: Move, id: TxId, ghost since: nat) returns (o: Outcome)
      requires since <= db.faults
      requires Ready() && Settled(db.Committed(), r, m) && FindId(db.headers, id).None?
      requires FindKey(db.headers, m.key).None? || db.faults > since
      requires FindKey(db.headers, m.key).None? ==> Atomic(db.Committed(), r, id) == Post(db.Committed(), m, id)
      modifies db
      ensures Ready() && db.begins == old(db.begins) + 1
      ensures Honest(old(db.Committed()), db.Committed(), db.faults > since, r, id, o)
      ensures Audited(old(db.audit), db.audit, db.Committed(), r, true, db.Committed() != old(db.Committed()), o, id)
      ensures db.faults >= old(db.faults)
    {
      ghost var l := db.Committed();
      SettledSound(l, r, m);
      var err := PostMove(m, id);
      ghost var n := db.Committed();
      assert err.Some? ==> n == l;
      o := Finish(c, r, m, id, err);
      assert db.Committed() == n;
      FinishedIsHonest(l, n, r, m, id, db.faults > since, err, o);
    }

    /** Every way a transfer can end, told in its own fields, unless a query failed and
        nothing was committed. */
    method Transfer(c: CallId, src: AccountId, dst: AccountId, amount: int, key: string, id: TxId) returns (o: Outcome)
      requires Ready() && FindId(db.headers, id).None?
      modifies db
      ensures Ready()
      ensures Honest(old(db.Committed()), db.Committed(), db.faults > old(db.faults),
                     TransferReq(src, dst, amount, key), id, o)
      ensures db.faults == old(db.faults) || db.Committed() != old(db.Committed()) ==>
                Transfers(old(db.Committed()), (db.Committed(), o), src, dst, amount, key, id)
      ensures Audited(old(db.audit), db.audit, db.Committed(), TransferReq(src, dst, amount, key),
                      db.begins > old(db.begins), db.Committed() != old(db.Committed()), o, id)
    {
      TransferDoes(db.Committed(), src, dst, amount, key, id);
      var m := Move(Base.Transfer, src, dst, amount, key, None);
      if amount <= 0 {
        o := Refuse(c, TransferReq(src, dst, amount, key), Base.Transfer, Some(m), id, InvalidAmount, false);
        return;
      }
      if src == dst {
        o := Refuse(c, TransferReq(src, dst, amount, key), Base.Transfer, Some(m), id, SelfTransfer, false);
        return;
      }
      if src == EXTERNAL || dst == EXTERNAL {
        o := Refuse(c, TransferReq(src, dst, amount, key), Base.Transfer, Some(m), id, SystemAccount, false);
        return;
      }
      var found := db.ByKey(key);
      if found.Some? { return Ok(found.value.0, found.value.1); }
      o := Settle(c, TransferReq(src, dst, amount, key), m, id, old(db.faults));
    }

    method Deposit(c: CallId, dst: AccountId, amount: int, key: string, id: TxId) returns (o: Outcome)
      requires Ready() && FindId(db.headers, id).None?
      modifies db
      ensures Ready()
      ensures Honest(old(db.Committed()), db.Committed(), db.faults > old(db.faults),
                     DepositReq(dst, amount, key), id, o)
      ensures db.faults == old(db.faults) || db.Committed() != old(db.Committed()) ==>
                Deposits(old(db.Committed()), (db.Committed(), o), dst, amount, key, id)
      ensures Audited(old(db.audit), db.audit, db.Committed(), DepositReq(dst, amount, key),
                      db.begins > old(db.begins), db.Committed() != old(db.Committed()), o, id)
    {
      DepositDoes(db.Committed(), dst, amount, key, id);
      var m := Move(Base.Deposit, EXTERNAL, dst, amount, key, None);
      if amount <= 0 {
        o := Refuse(c, DepositReq(dst, amount, key), Base.Deposit, Some(m), id, InvalidAmount, false);
        return;
      }
      if dst == EXTERNAL {
        o := Refuse(c, DepositReq(dst, amount, key), Base.Deposit, Some(m), id, SystemAccount, false);
        return;
      }
      var found := db.ByKey(key);
      if found.Some? { return Ok(found.value.0, found.value.1); }
      o := Settle(c, DepositReq(dst, amount, key), m, id, old(db.faults));
    }

    /** The original's source, destination and amount, from its entries: the last debit and
        the last other leg, or zero values when there is none. */
    method ScanOriginal(legs: seq<Entry>) returns (src: AccountId, dst: AccountId, amount: int)
      ensures Scanned(src, dst, amount) == ScanLegs(legs)
      ensures forall i :: LastOf(legs, true, i) ==> src == legs[i].account && amount == legs[i].amount
      ensures forall i :: LastOf(legs, false, i) ==> dst == legs[i].account
      ensures (forall i :: 0 <= i < |legs| ==> legs[i].direction != Debit) ==> src == 0 && amount == 0
      ensures (forall i :: 0 <= i < |legs| ==> legs[i].direction == Debit) ==> dst == 0
    {
      src, dst, amount := 0, 0, 0;
      for i := 0 to |legs|
        invariant forall k :: LastOf(legs[..i], true, k) ==> src == legs[k].account && amount == legs[k].amount
        invariant forall k :: LastOf(legs[..i], false, k) ==> dst == legs[k].account
        invariant (forall k :: 0 <= k < i ==> legs[k].direction != Debit) ==> src == 0 && amount == 0
        invariant (forall k :: 0 <= k < i ==> legs[k].direction == Debit) ==> dst == 0
        invariant Scanned(src, dst, amount) == ScanLegs(legs[..i])
      {
        assert legs[..i + 1][..i] == legs[..i];
        if legs[i].direction == Debit {
          src, amount := legs[i].account, legs[i].amount;
        } else {
          dst := legs[i].account;
        }
      }
      assert legs[..|legs|] == legs;
    }

    /** Everything after the original has been fetched. */
    method Undo(c: CallId, original: TxId, key: string, h: Header, legs: seq<Entry>, id: TxId, ghost since: nat)
      returns (o: Outcome)
      requires since <= db.faults
      requires Ready() && FindId(db.headers, id).None?
      requires FindId(db.headers, original) == Some(h) && legs == EntriesOf(db.entries, h.id)
      requires FindKey(db.headers, key).None? || db.faults > since
      modifies db
      ensures Ready() && db.begins >= old(db.begins)
      ensures Honest(old(db.Committed()), db.Committed(), db.faults > since, ReverseReq(original, key), id, o)
      ensures Audited(old(db.audit), db.audit, db.Committed(), ReverseReq(original, key),
                      db.begins > old(db.begins), db.Committed() != old(db.Committed()), o, id)
      ensures db.faults >= old(db.faults)
    {
      if h.kind != Base.Transfer {
        o := Refuse(c, ReverseReq(original, key), Reversal, None, id, NotReversible, false);
        return;
      }
      var src, dst, amount := ScanOriginal(legs);
      var m := Move(Reversal, dst, src, amount, key, Some(original));
      FetchedSettled(db.Committed(), ReverseReq(original, key), h);
      o := Settle(c, ReverseReq(original, key), m, id, since);
    }

    method Reverse(c: CallId, original: TxId, key: string, id: TxId) returns (o: Outcome)
      requires Ready() && FindId(db.headers, id).None?
      modifies db
      ensures Ready()
      ensures Honest(old(db.Committed()), db.Committed(), db.faults > old(db.faults), ReverseReq(original, key), id, o)
      ensures db.faults == old(db.faults) || db.Committed() != old(db.Committed()) ==>
                Reverses(old(db.Committed()), (db.Committed(), o), original, key, id)
      ensures Audited(old(db.audit), db.audit, db.Committed(), ReverseReq(original, key),
                      db.begins > old(db.begins), db.Committed() != old(db.Committed()), o, id)
    {
      ReversalDoes(db.Committed(), original, key, id);
      var found := db.ByKey(key);
      if found.Some? { return Ok(found.value.0, found.value.1); }
      var fetched, err := db.ById(original);
      if fetched.None? { o := Refuse(c, ReverseReq(original, key), Reversal, None, id, err, false); return; }
      o := Undo(c, original, key, fetched.value.0, fetched.value.1, id, old(db.faults));
    }

    /** CreateAccount: one insert on the pool. */
    method CreateAccount(id: AccountId) returns (o: Outcome)
      requires Ready() && id !in db.accounts
      modifies db`accounts, db`faults
      ensures Ready()
      ensures Honest(old(db.Committed()), db.Committed(), db.faults > old(db.faults), CreateReq, id, o)
    {
      var fails := db.Fault();
      if fails { return Err(StoreFailure); }
      OpenedLedger(db.Committed(), id);
      db.accounts := db.accounts[id := Account(0, false)];
      o := Created(id);
    }
  }
}
