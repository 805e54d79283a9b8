/** What the ledger promises its users, in every state of every concurrent run. */
module Guarantees {
  import opened Base
  import opened Serial
  import opened LedgerInvariant
  import opened Protocol
  import opened Invariant
  import opened Steps

  lemma {:induction false} LedgerGrows(s: State, evs: seq<Event>, t: State)
    requires Inv(s) && Reaches(s, evs, t)
    ensures Inv(t) && Extends(s.ledger, t.ledger)
  {
    if evs != [] {
      var u, ev := Exec(s, evs[..|evs| - 1]).value, evs[|evs| - 1];
      LedgerGrows(s, evs[..|evs| - 1], u);
      InvStep(u, ev);
      LedgerStep(u, ev);
    }
  }

  // ---------- Balances ----------

  /** The amounts of the deposits among the first k transactions. */
  function Deposits(l: Ledger, k: nat): int
    requires k <= |l.headers| && 2 * |l.headers| <= |l.entries|
  {
    if k == 0 then 0
    else Deposits(l, k - 1) + if l.headers[k - 1].kind == Deposit then l.entries[2 * k - 2].amount else 0
  }

  lemma NetPair(es: seq<Entry>, d: Entry, c: Entry, a: AccountId)
    ensures Net(es + [d, c], a) ==
            Net(es, a) + (if d.account == a then Sign(d) else 0) + (if c.account == a then Sign(c) else 0)
  {
    assert es + [d, c] == es + [d] + [c];
    NetAppend(es, d, a);
    NetAppend(es + [d], c, a);
  }

  lemma ExternalLegs(l: Ledger, i: nat)
    requires HistoryOk(l) && i < |l.headers|
    ensures l.entries[2 * i + 1].account != EXTERNAL
    ensures l.entries[2 * i].account == EXTERNAL <==> l.headers[i].kind == Deposit
    ensures l.entries[2 * i].direction == Debit
  {
    assert TxnOk(l, i);
    if l.headers[i].kind == Reversal {
      var j: nat :| Undoes(l, i, j);
      assert TxnOk(l, j);
    }
  }

  lemma {:induction false} ExternalNet(l: Ledger, k: nat)
    requires HistoryOk(l) && k <= |l.headers|
    ensures Net(l.entries[..2 * k], EXTERNAL) == -Deposits(l, k)
  {
    if k > 0 {
      ExternalNet(l, k - 1);
      ExternalLegs(l, k - 1);
      var d, c := l.entries[2 * k - 2], l.entries[2 * k - 1];
      assert l.entries[..2 * k] == l.entries[..2 * (k - 1)] + [d, c];
      NetPair(l.entries[..2 * (k - 1)], d, c, EXTERNAL);
    }
  }

  /** Cache agreement, conservation and sign: every balance equals its credits minus its
      debits over the committed entries, all balances sum to zero, no user balance is
      negative, and EXTERNAL is exactly minus the deposits ever committed. */
  lemma BooksBalance(pool: nat, evs: seq<Event>, s: State)
    requires Reaches(Init(pool), evs, s)
    ensures forall a :: a in s.ledger.accounts ==> s.ledger.accounts[a].balance == Net(s.ledger.entries, a)
    ensures Total(s.ledger.accounts) == 0
    ensures forall a :: a in s.ledger.accounts && !s.ledger.accounts[a].isSystem ==> s.ledger.accounts[a].balance >= 0
    ensures 2 * |s.ledger.headers| == |s.ledger.entries|
    ensures EXTERNAL in s.ledger.accounts
    ensures s.ledger.accounts[EXTERNAL].balance == -Deposits(s.ledger, |s.ledger.headers|)
  {
    InvRun(pool, evs, s);
    var l := s.ledger;
    forall a | a in l.accounts
      ensures l.accounts[a].balance == Net(l.entries, a) && (!l.accounts[a].isSystem ==> l.accounts[a].balance >= 0)
    {
      assert AccountOk(l, a);
    }
    ExternalNet(l, |l.headers|);
    assert l.entries[..2 * |l.headers|] == l.entries;
  }

  lemma {:induction false} DepositsStable(l: Ledger, n: Ledger, k: nat)
    requires HistoryOk(l) && HistoryOk(n) && Extends(l, n) && k <= |l.headers|
    ensures Deposits(n, k) == Deposits(l, k)
  {
    if k > 0 { DepositsStable(l, n, k - 1); }
  }

  lemma {:induction false} DepositsGrow(l: Ledger, j: nat, k: nat)
    requires HistoryOk(l) && j <= k <= |l.headers|
    ensures Deposits(l, j) <= Deposits(l, k)
  {
    if j < k {
      DepositsGrow(l, j, k - 1);
      assert TxnOk(l, k - 1);
    }
  }

  /** EXTERNAL's balance never increases along a run. */
  lemma ExternalNeverIncreases(pool: nat, evs: seq<Event>, s: State, more: seq<Event>, t: State)
    requires Reaches(Init(pool), evs, s) && Reaches(s, more, t)
    ensures EXTERNAL in s.ledger.accounts && EXTERNAL in t.ledger.accounts
    ensures t.ledger.accounts[EXTERNAL].balance <= s.ledger.accounts[EXTERNAL].balance
  {
    InvRun(pool, evs, s);
    LedgerGrows(s, more, t);
    ExecConcat(Init(pool), evs, s, more);
    BooksBalance(pool, evs, s);
    BooksBalance(pool, evs + more, t);
    DepositsStable(s.ledger, t.ledger, |s.ledger.headers|);
    DepositsGrow(t.ledger, |s.ledger.headers|, |t.ledger.headers|);
  }

  // ---------- Overflow and database refusals ----------

  /** Every balance and every entry amount fits its column. */
  lemma ColumnsFit(pool: nat, evs: seq<Event>, s: State)
    requires Reaches(Init(pool), evs, s)
    ensures forall a :: a in s.ledger.accounts ==> Fits(s.ledger.accounts[a].balance)
    ensures forall k :: 0 <= k < |s.ledger.entries| ==>
            0 < s.ledger.entries[k].amount && Fits(s.ledger.entries[k].amount)
  {
    InvRun(pool, evs, s);
    var l := s.ledger;
    forall a | a in l.accounts ensures Fits(l.accounts[a].balance) { assert AccountOk(l, a); }
    forall k | 0 <= k < |l.entries| ensures 0 < l.entries[k].amount && Fits(l.entries[k].amount) {
      AmountFits(l, k);
    }
  }

  lemma AmountFits(l: Ledger, k: nat)
    requires HistoryOk(l) && k < |l.entries|
    ensures 0 < l.entries[k].amount && Fits(l.entries[k].amount)
  {
    assert TxnOk(l, k / 2);
    assert k == 2 * (k / 2) || k == 2 * (k / 2) + 1;
  }

  /** The error a call is carrying towards its return, if any. */
  function Carried(pc: Pc): Option<Error> {
    match pc
    case InTx(_, stage) => if stage.Rollback? then Some(stage.error) else None
    case AuditFailure(e, _) => Some(e)
    case Returned(o) => if o.Err? then Some(o.error) else None
    case _ => None
  }

  predicate Expected(r: Request, e: Error) {
    && e != CheckViolation && e != ForeignKeyViolation && e != UnbalancedEntries
    && (e == NumericOverflow ==> r.DepositReq?)
    && (e == InsufficientFunds ==> r.TransferReq? || r.ReverseReq?)
    && (e == AccountNotFound ==> r.TransferReq? || r.DepositReq?)
    && (e in {TransactionNotFound, NotReversible, AlreadyReversed} ==> r.ReverseReq?)
    && (e in {InvalidAmount, SelfTransfer, SystemAccount} ==> Refusal(r) == Some(e))
  }

  /** No run ever meets the balance CHECK, a foreign key violation, or the deferred trigger;
      only a deposit ever overflows; only a transfer or a reversal runs out of funds. */
  lemma ErrorsAreExpected(pool: nat, evs: seq<Event>, s: State, c: CallId)
    requires Reaches(Init(pool), evs, s)
    requires c in s.calls && Carried(s.calls[c].pc).Some?
    ensures Expected(s.calls[c].req, Carried(s.calls[c].pc).value)
  {
    InvRun(pool, evs, s);
    assert CallOk(s, c);
    CarriedFits(s, c);
    FittingErrors(s.calls[c].req, Carried(s.calls[c].pc).value);
  }

  lemma CarriedFits(s: State, c: CallId)
    requires c in s.calls && CallOk(s, c) && Carried(s.calls[c].pc).Some?
    ensures ErrorFits(s.calls[c].req, Carried(s.calls[c].pc).value)
  {
  }

  lemma FittingErrors(r: Request, e: Error)
    requires ErrorFits(r, e)
    ensures Expected(r, e)
  {
  }

  /** A store call that does not fail leads to an overflow exactly at a deposit's update of
      EXTERNAL, and exactly when the deposits committed so far and this one reach 10^16. */
  lemma OverflowExactly(pool: nat, evs: seq<Event>, s: State, c: CallId)
    requires Reaches(Init(pool), evs, s)
    requires c in s.calls && s.calls[c].pc.InTx? && !s.calls[c].pc.stage.Rollback?
    ensures 2 * |s.ledger.headers| == |s.ledger.entries|
    ensures var tx, stage := s.calls[c].pc.tx, s.calls[c].pc.stage;
            Carried(TxStep(s.ledger, c, tx, stage, true).pc) == Some(NumericOverflow) <==>
            && stage == DebitUpdate && tx.move.kind == Deposit && tx.move.debit == EXTERNAL
            && Deposits(s.ledger, |s.ledger.headers|) + tx.move.amount >= LIMIT
  {
    InvRun(pool, evs, s);
    BooksBalance(pool, evs, s);
    AtItsStage(s, c);
    OverflowStage(s, c, s.calls[c].pc.tx, s.calls[c].pc.stage);
  }

  lemma OverflowStage(s: State, c: CallId, tx: Tx, stage: Stage)
    requires AtStage(s, c, tx, stage) && LedgerOk(s.ledger) && !stage.Rollback?
    ensures Carried(TxStep(s.ledger, c, tx, stage, true).pc) == Some(NumericOverflow) <==>
            && stage == DebitUpdate && tx.move.kind == Deposit && tx.move.debit == EXTERNAL
            && -s.ledger.accounts[EXTERNAL].balance + tx.move.amount >= LIMIT
  {
    if stage.DebitUpdate? {
      DebitOverflow(s, c, tx);
    } else if stage.CreditUpdate? || stage.InsertLegs? {
      UpdateStep(s, c, s.calls[c].req, tx);
      assert Carried(TxStep(s.ledger, c, tx, stage, true).pc) == None;
    } else {
      NoOverflowElsewhere(s.ledger, c, tx, stage);
    }
  }

  lemma NoOverflowElsewhere(l: Ledger, c: CallId, tx: Tx, stage: Stage)
    requires !stage.DebitUpdate? && !stage.CreditUpdate? && !stage.InsertLegs? && !stage.Rollback?
    ensures Carried(TxStep(l, c, tx, stage, true).pc) != Some(NumericOverflow)
  {
  }

  lemma DebitOverflow(s: State, c: CallId, tx: Tx)
    requires AtStage(s, c, tx, DebitUpdate) && LedgerOk(s.ledger)
    ensures Carried(TxStep(s.ledger, c, tx, DebitUpdate, true).pc) == Some(NumericOverflow) <==>
            && tx.move.kind == Deposit && tx.move.debit == EXTERNAL
            && -s.ledger.accounts[EXTERNAL].balance + tx.move.amount >= LIMIT
  {
    var l, m := s.ledger, tx.move;
    UpdateStep(s, c, s.calls[c].req, tx);
    SettledSound(l, s.calls[c].req, m);
    SoundFacts(l, m);
    assert AccountOk(l, EXTERNAL) && AccountOk(l, m.debit);
    assert m.debit in tx.read;
  }

  // ---------- Exactly once ----------

  /** Over a whole run, all calls with one key that return success return one and the same
      transaction with the same legs, which is the only one committed under that key. */
  lemma ExactlyOncePerKey(pool: nat, evs: seq<Event>, s: State, more: seq<Event>, t: State, c: CallId, d: CallId)
    requires Reaches(Init(pool), evs, s) && Reaches(s, more, t)
    requires c in s.calls && s.calls[c].pc.Returned? && s.calls[c].pc.outcome.Ok?
    requires d in t.calls && t.calls[d].pc.Returned? && t.calls[d].pc.outcome.Ok?
    requires Key(s.calls[c].req) == Key(t.calls[d].req)
    ensures s.calls[c].pc.outcome == t.calls[d].pc.outcome
    ensures var o := t.calls[d].pc.outcome;
            && o.header in t.ledger.headers && o.header.key == Key(t.calls[d].req)
            && o.legs == EntriesOf(t.ledger.entries, o.header.id)
            && forall h :: h in t.ledger.headers && h.key == o.header.key ==> h == o.header
  {
    InvRun(pool, evs, s);
    LedgerGrows(s, more, t);
    var o, p := s.calls[c].pc.outcome, t.calls[d].pc.outcome;
    assert CallOk(s, c) && CallOk(t, d);
    RecordedStable(s.ledger, t.ledger, o.header, o.legs);
    RecordedUnique(t.ledger, o.header, o.legs);
    RecordedUnique(t.ledger, p.header, p.legs);
    forall h | h in t.ledger.headers && h.key == p.header.key ensures h == p.header {
      SameKeySameHeader(t.ledger, h, p.header);
    }
  }

  /** In every state of every run no two committed transactions have the same key, the same
      id, or the same reversed original. */
  lemma KeysNeverRepeat(pool: nat, evs: seq<Event>, s: State)
    requires Reaches(Init(pool), evs, s)
    ensures forall i, j :: 0 <= i < j < |s.ledger.headers| ==>
              var g, h := s.ledger.headers[i], s.ledger.headers[j];
              && g.key != h.key && g.id != h.id
              && (g.reverses.Some? ==> g.reverses != h.reverses)
  {
    InvRun(pool, evs, s);
    assert HistoryOk(s.ledger) && Unique(s.ledger.headers);
  }

  // ---------- Reversals ----------

  /** Every committed reversal points at one committed transfer and moves its amount back
      along the same two user accounts; no transfer has two. */
  lemma ReversalSafety(pool: nat, evs: seq<Event>, s: State, i: nat)
    requires Reaches(Init(pool), evs, s)
    requires i < |s.ledger.headers| && s.ledger.headers[i].kind == Reversal
    ensures exists j: nat :: Undoes(s.ledger, i, j)
    ensures 2 * i + 1 < |s.ledger.entries|
    ensures s.ledger.entries[2 * i].account != EXTERNAL && s.ledger.entries[2 * i + 1].account != EXTERNAL
    ensures s.ledger.entries[2 * i].account != s.ledger.entries[2 * i + 1].account
    ensures forall k :: 0 <= k < |s.ledger.headers| && k != i ==>
            s.ledger.headers[k].reverses != s.ledger.headers[i].reverses
  {
    InvRun(pool, evs, s);
    assert TxnOk(s.ledger, i);
    ExternalLegs(s.ledger, i);
    var j: nat :| Undoes(s.ledger, i, j);
    assert s.ledger.headers[i].reverses.Some?;
  }

  /** The entries without those of two transactions. */
  function Omit(es: seq<Entry>, x: TxId, y: TxId): seq<Entry> {
    if es == [] then []
    else Omit(es[..|es| - 1], x, y) + if es[|es| - 1].txId in {x, y} then [] else [es[|es| - 1]]
  }

  lemma OmitAppend(es: seq<Entry>, e: Entry, x: TxId, y: TxId)
    ensures Omit(es + [e], x, y) == Omit(es, x, y) + if e.txId == x || e.txId == y then [] else [e]
  {
    assert (es + [e])[..|es|] == es;
  }

  lemma NetSplitStep(es: seq<Entry>, e: Entry, x: TxId, y: TxId, a: AccountId)
    requires x != y
    requires Net(es, a) == Net(Omit(es, x, y), a) + Net(EntriesOf(es, x), a) + Net(EntriesOf(es, y), a)
    ensures var all := es + [e];
            Net(all, a) == Net(Omit(all, x, y), a) + Net(EntriesOf(all, x), a) + Net(EntriesOf(all, y), a)
  {
    OmitAppend(es, e, x, y);
    EntriesOfAppend(es, e, x);
    EntriesOfAppend(es, e, y);
    NetAppend(es, e, a);
    var o, p, q := Omit(es, x, y), EntriesOf(es, x), EntriesOf(es, y);
    assert o + [] == o && p + [] == p && q + [] == q;
    NetAppend(if e.txId == x then p else if e.txId == y then q else o, e, a);
  }

  lemma {:induction false} NetSplit(es: seq<Entry>, x: TxId, y: TxId, a: AccountId)
    requires x != y
    ensures Net(es, a) == Net(Omit(es, x, y), a) + Net(EntriesOf(es, x), a) + Net(EntriesOf(es, y), a)
  {
    if es != [] {
      var init, e := es[..|es| - 1], es[|es| - 1];
      assert es == init + [e];
      NetSplit(init, x, y, a);
      NetSplitStep(init, e, x, y, a);
    }
  }

  lemma NetOfPair(d: Entry, c: Entry, a: AccountId)
    ensures Net([d, c], a) == (if d.account == a then Sign(d) else 0) + (if c.account == a then Sign(c) else 0)
  {
    NetPair([], d, c, a);
    assert [] + [d, c] == [d, c];
  }

  lemma PairsCancel(l: Ledger, i: nat, j: nat, a: AccountId)
    requires Undoes(l, i, j)
    ensures Net([l.entries[2 * i], l.entries[2 * i + 1]], a) + Net([l.entries[2 * j], l.entries[2 * j + 1]], a) == 0
  {
    NetOfPair(l.entries[2 * i], l.entries[2 * i + 1], a);
    NetOfPair(l.entries[2 * j], l.entries[2 * j + 1], a);
  }

  lemma WhatIsUndone(l: Ledger, i: nat, j: nat)
    requires HistoryOk(l) && i < |l.headers| && j < |l.headers| && l.headers[i].reverses == Some(l.headers[j].id)
    ensures Undoes(l, i, j) && l.headers[i].id != l.headers[j].id
  {
    assert TxnOk(l, i);
    var k: nat :| Undoes(l, i, k);
    assert k == j;
  }

  /** Undo over history: striking a transfer and its reversal from the committed history,
      whatever was committed before, between and after them, changes no account's balance. */
  lemma UndoOverHistory(pool: nat, evs: seq<Event>, s: State, i: nat, j: nat, a: AccountId)
    requires Reaches(Init(pool), evs, s)
    requires i < |s.ledger.headers| && j < |s.ledger.headers|
    requires s.ledger.headers[i].reverses == Some(s.ledger.headers[j].id)
    requires a in s.ledger.accounts
    ensures Net(Omit(s.ledger.entries, s.ledger.headers[i].id, s.ledger.headers[j].id), a) ==
            s.ledger.accounts[a].balance
  {
    var l := s.ledger;
    InvRun(pool, evs, s);
    assert AccountOk(l, a);
    WhatIsUndone(l, i, j);
    EntriesOfTxn(l, i);
    EntriesOfTxn(l, j);
    NetSplit(l.entries, l.headers[i].id, l.headers[j].id, a);
    PairsCancel(l, i, j, a);
  }

  // ---------- Split reads ----------

  /** Header and entries are fetched by two queries at different moments, yet from the commit
      on, every later read of the header and of the entries sees exactly what the committing
      call wrote: one debit and one credit of the same positive amount on two accounts. */
  lemma ReadsAreNeverTorn(pool: nat, evs: seq<Event>, s: State, c: CallId, newId: TxId, more: seq<Event>, t: State)
    requires Reaches(Init(pool), evs, s)
    requires c in s.calls && s.calls[c].pc.InTx? && s.calls[c].pc.stage == Commit
    requires Enabled(s, Run(c, true, newId)) && Reaches(Next(s, Run(c, true, newId)), more, t)
    ensures var m, id := s.calls[c].pc.tx.move, s.calls[c].pc.tx.id;
            && FindId(t.ledger.headers, id) == Some(HeaderOf(m, id))
            && FindKey(t.ledger.headers, m.key) == Some(HeaderOf(m, id))
            && EntriesOf(t.ledger.entries, id) == LegsOf(m, id)
            && m.amount > 0 && m.debit != m.credit
  {
    InvRun(pool, evs, s);
    var tx := s.calls[c].pc.tx;
    var n := CommitStep(s, c, newId);
    RecordedForGood(n, more, t, HeaderOf(tx.move, tx.id), LegsOf(tx.move, tx.id));
  }

  lemma CommitStep(s: State, c: CallId, newId: TxId) returns (n: State)
    requires Inv(s) && c in s.calls && s.calls[c].pc.InTx? && s.calls[c].pc.stage == Commit
    requires Enabled(s, Run(c, true, newId))
    ensures n == Next(s, Run(c, true, newId)) && Inv(n)
    ensures var tx := s.calls[c].pc.tx;
            && Recorded(n.ledger, HeaderOf(tx.move, tx.id), LegsOf(tx.move, tx.id))
            && tx.move.amount > 0 && tx.move.debit != tx.move.credit
  {
    n := After(s, c);
    CommitNext(s, c, newId);
    InvStep(s, Run(c, true, newId));
    CommitRecords(s, c, s.calls[c].pc.tx);
  }

  lemma CommitNext(s: State, c: CallId, newId: TxId)
    requires c in s.calls && s.calls[c].pc.InTx? && s.calls[c].pc.stage == Commit && Enabled(s, Run(c, true, newId))
    ensures Next(s, Run(c, true, newId)) == After(s, c)
  {
  }

  lemma RecordedForGood(s: State, more: seq<Event>, t: State, h: Header, legs: seq<Entry>)
    requires Inv(s) && Recorded(s.ledger, h, legs) && Reaches(s, more, t)
    ensures FindId(t.ledger.headers, h.id) == Some(h) && FindKey(t.ledger.headers, h.key) == Some(h)
    ensures EntriesOf(t.ledger.entries, h.id) == legs
  {
    LedgerGrows(s, more, t);
    RecordedStable(s.ledger, t.ledger, h, legs);
    RecordedReads(t.ledger, h, legs);
  }

  lemma RecordedReads(l: Ledger, h: Header, legs: seq<Entry>)
    requires HistoryOk(l) && Recorded(l, h, legs)
    ensures FindId(l.headers, h.id) == Some(h) && FindKey(l.headers, h.key) == Some(h)
    ensures EntriesOf(l.entries, h.id) == legs
  {
    RecordedUnique(l, h, legs);
    SameKeySameHeader(l, h, FindId(l.headers, h.id).value);
    SameKeySameHeader(l, h, FindKey(l.headers, h.key).value);
  }

  lemma CommitRecords(s: State, c: CallId, tx: Tx)
    requires Inv(s) && c in s.calls && s.calls[c].pc == InTx(tx, Commit)
    ensures Recorded(After(s, c).ledger, HeaderOf(tx.move, tx.id), LegsOf(tx.move, tx.id))
    ensures tx.move.amount > 0 && tx.move.debit != tx.move.credit
  {
    AtItsStage(s, c);
    CommitGoes(s, c, tx);
    CommitIsPost(s, c, tx);
    PostedRecorded(s.ledger, tx.move, tx.id);
    SettledSound(s.ledger, s.calls[c].req, tx.move);
    SoundFacts(s.ledger, tx.move);
  }

  /** A call between its two queries, for a replay, a refetch or a reversal: the header it
      found still has exactly one debit and one credit leg when the second query runs. */
  lemma FoundIsWhole(pool: nat, evs: seq<Event>, s: State, c: CallId)
    requires Reaches(Init(pool), evs, s) && c in s.calls
    requires s.calls[c].pc.ReplayEntries? || s.calls[c].pc.FetchEntries? || s.calls[c].pc.RefetchEntries?
    ensures var h := s.calls[c].pc.found;
            && h in s.ledger.headers
            && var legs := EntriesOf(s.ledger.entries, h.id);
               && |legs| == 2 && legs[0].direction == Debit && legs[1].direction == Credit
               && legs[0].amount == legs[1].amount > 0 && legs[0].account != legs[1].account
  {
    InvRun(pool, evs, s);
    assert CallOk(s, c);
    var h := s.calls[c].pc.found;
    ReadBack(s.ledger, h);
    var i: nat :| RecordedAt(s.ledger, h, EntriesOf(s.ledger.entries, h.id), i);
  }
}
