/** The inductive invariant of the state machine: what every call knows at every point of
    its code, and why the steps of other calls cannot take it away. */
module Invariant {
  import opened Base
  import opened Serial
  import opened LedgerInvariant
  import opened Protocol

  // ---------- What a call knows ----------

  predicate Validated(r: Request) {
    !r.CreateReq? && Refusal(r).None?
  }

  /** m is the movement request r leads to; for a reversal, its original is committed. */
  ghost predicate Settled(l: Ledger, r: Request, m: Move) {
    && Validated(r)
    && match r
       case ReverseReq(original, key) =>
         && m.kind == Reversal && m.key == key && m.reverses == Some(original)
         && exists j: nat :: Mirrors(l, m, original, j)
       case _ =>
         Asked(r) == Some(m)
  }

  lemma SettledSound(l: Ledger, r: Request, m: Move)
    requires Settled(l, r, m)
    ensures Sound(l, m) && m.key == Key(r) && Some(m.kind) == KindOf(r)
  {
  }

  /** Call c was given this id and has not committed it. */
  predicate OwnsId(s: State, c: CallId, id: TxId) {
    id in s.ids && s.ids[id] == Some(c) && FindId(s.ledger.headers, id).None?
  }

  /** The errors a request can end with.  A CHECK violation, a foreign key violation, an
      unbalanced commit, or an overflow of anything but a deposit are not among them. */
  predicate ErrorFits(r: Request, e: Error) {
    if r.CreateReq? then e == StoreFailure
    else if Refusal(r).Some? then Refusal(r) == Some(e)
    else
      match e
      case StoreFailure => true
      case IdempotencyConflict => true
      case TransactionNotFound => r.ReverseReq?
      case NotReversible => r.ReverseReq?
      case AlreadyReversed => r.ReverseReq?
      case AccountNotFound => !r.ReverseReq?
      case InsufficientFunds => !r.DepositReq?
      case NumericOverflow => r.DepositReq?
      case _ => false
  }

  ghost predicate AboutOk(l: Ledger, r: Request, about: Option<Move>) {
    about == Asked(r) || (about.Some? && Settled(l, r, about.value))
  }

  predicate Blank(tx: Tx) {
    tx.writes == map[] && tx.header == None && tx.legs == [] && !tx.hasKey && !tx.hasRev
  }

  predicate Funded(tx: Tx) {
    && tx.read.Keys == {tx.move.debit, tx.move.credit}
    && (tx.move.kind != Deposit ==> tx.read[tx.move.debit] >= tx.move.amount)
  }

  predicate Debited(tx: Tx) {
    && Funded(tx)
    && Fits(tx.read[tx.move.debit] - tx.move.amount)
    && tx.move.debit in tx.writes && tx.writes[tx.move.debit] == tx.read[tx.move.debit] - tx.move.amount
  }

  predicate Credited(tx: Tx) {
    && Debited(tx)
    && tx.writes.Keys == {tx.move.debit, tx.move.credit}
    && tx.writes[tx.move.credit] == tx.read[tx.move.credit] + tx.move.amount
  }

  /** One row left to lock or two, in ascending order, all of them existing targets above
      every row already held. */
  predicate LockingOk(l: Ledger, tx: Tx, todo: seq<AccountId>) {
    var targets := {tx.move.debit, tx.move.credit};
    && (|todo| == 1 || (|todo| == 2 && todo[0] < todo[1] && todo[1] in targets && todo[1] in l.accounts))
    && todo[0] in targets && todo[0] in l.accounts
    && tx.read.Keys <= targets
    && (forall a :: a in tx.read ==> a < todo[0])
    && (tx.move.kind == Reversal ==> targets <= tx.read.Keys + {todo[0], todo[|todo| - 1]})
  }

  ghost predicate StageOk(l: Ledger, r: Request, tx: Tx, stage: Stage) {
    var m := tx.move;
    match stage
    case Scan => tx.read == map[] && Blank(tx)
    case Locking(todo) =>
      Blank(tx) && LockingOk(l, tx, todo)
    case Check =>
      && Blank(tx) && tx.read.Keys <= {m.debit, m.credit}
      && (m.kind == Reversal ==> {m.debit, m.credit} <= tx.read.Keys)
    case DebitUpdate => Blank(tx) && Funded(tx)
    case CreditUpdate => Debited(tx) && tx.writes.Keys == {m.debit} && Blank(tx.(writes := map[]))
    case InsertKey => Credited(tx) && Blank(tx.(writes := map[]))
    case InsertReverses => Credited(tx) && Blank(tx.(writes := map[], hasKey := false)) && tx.hasKey && m.reverses.Some?
    case InsertLegs =>
      && Credited(tx) && tx.header == Some(HeaderOf(m, tx.id)) && tx.legs == []
      && tx.hasKey && tx.hasRev == m.reverses.Some?
    case Commit =>
      && Credited(tx) && tx.header == Some(HeaderOf(m, tx.id)) && tx.legs == LegsOf(m, tx.id)
      && tx.hasKey && tx.hasRev == m.reverses.Some?
    case Rollback(e) => ErrorFits(r, e)
  }

  /** What was read under lock is still what is committed, and what was inserted into a
      unique index is still not committed by anyone. */
  ghost predicate TxOk(s: State, c: CallId, r: Request, tx: Tx) {
    && Settled(s.ledger, r, tx.move)
    && OwnsId(s, c, tx.id)
    && (forall a :: a in tx.read ==>
          && a in s.locks && s.locks[a] == c
          && a in s.ledger.accounts && s.ledger.accounts[a].balance == tx.read[a])
    && (tx.hasKey ==>
          && tx.move.key in s.keys && s.keys[tx.move.key] == c
          && FindKey(s.ledger.headers, tx.move.key).None?)
    && (tx.hasRev ==>
          && tx.move.reverses.Some?
          && tx.move.reverses.value in s.revs && s.revs[tx.move.reverses.value] == c
          && !Reversed(s.ledger.headers, tx.move.reverses.value))
  }

  ghost predicate DoneOk(s: State, c: CallId, r: Request, o: Outcome) {
    match o
    case Ok(h, legs) => Validated(r) && h.key == Key(r) && Recorded(s.ledger, h, legs)
    case Created(a) => r.CreateReq? && a in s.ledger.accounts && a in s.ids && s.ids[a] == Some(c)
    case Err(e) => ErrorFits(r, e)
  }

  ghost predicate CallOk(s: State, c: CallId)
    requires c in s.calls
  {
    var r, l := s.calls[c].req, s.ledger;
    match s.calls[c].pc
    case Validate => true
    case ReplayHeader => Validated(r)
    case ReplayEntries(h) => Validated(r) && h in l.headers && h.key == Key(r)
    case FetchHeader => r.ReverseReq?
    case FetchEntries(h) => r.ReverseReq? && h in l.headers && h.id == r.original
    case NewId(m) => Settled(l, r, m)
    case Begin(m, id) => Settled(l, r, m) && OwnsId(s, c, id)
    case InTx(tx, stage) => TxOk(s, c, r, tx) && StageOk(l, r, tx, stage)
    case RefetchHeader(m) => Settled(l, r, m)
    case RefetchEntries(m, h) => Settled(l, r, m) && h in l.headers && h.key == Key(r)
    case AuditFailure(e, about) => ErrorFits(r, e) && AboutOk(l, r, about)
    case AuditSuccess(tx) =>
      && Settled(l, r, tx.move)
      && tx.header == Some(HeaderOf(tx.move, tx.id)) && tx.legs == LegsOf(tx.move, tx.id)
      && Recorded(l, tx.header.value, tx.legs)
      && tx.id in s.ids && s.ids[tx.id] == Some(c)
    case CreateRow => r.CreateReq?
    case Returned(o) => DoneOk(s, c, r, o)
  }

  // ---------- What the shared tables say ----------

  predicate HoldsRow(s: State, c: CallId, a: AccountId) {
    c in s.calls && s.calls[c].pc.InTx? && a in s.calls[c].pc.tx.read
  }

  predicate HoldsKey(s: State, c: CallId, k: string) {
    c in s.calls && s.calls[c].pc.InTx? && s.calls[c].pc.tx.hasKey && s.calls[c].pc.tx.move.key == k
  }

  predicate HoldsRev(s: State, c: CallId, t: TxId) {
    c in s.calls && s.calls[c].pc.InTx? && s.calls[c].pc.tx.hasRev && s.calls[c].pc.tx.move.reverses == Some(t)
  }

  ghost predicate SharedOk(s: State) {
    && (forall a :: a in s.locks ==> HoldsRow(s, s.locks[a], a))
    && (forall k :: k in s.keys ==> HoldsKey(s, s.keys[k], k))
    && (forall t :: t in s.revs ==> HoldsRev(s, s.revs[t], t))
    && (forall c :: c in s.conns <==> c in s.calls && s.calls[c].pc.InTx?)
    && |s.conns| <= s.pool
    && (forall h :: h in s.ledger.headers ==> h.id in s.ids)
    && (forall a :: a in s.ledger.accounts ==> a in s.ids)
  }

  ghost predicate Inv(s: State) {
    && LedgerOk(s.ledger)
    && SharedOk(s)
    && forall c :: c in s.calls ==> CallOk(s, c)
  }

  // ---------- What other calls' steps leave alone ----------

  /** From s to t nothing that call d relies on has changed. */
  ghost predicate Stable(s: State, t: State, d: CallId) {
    && Extends(s.ledger, t.ledger)
    && d in s.calls && d in t.calls && t.calls[d] == s.calls[d]
    && (forall a :: a in s.locks && s.locks[a] == d ==>
          && a in t.locks && t.locks[a] == d
          && (a in s.ledger.accounts ==> t.ledger.accounts[a] == s.ledger.accounts[a]))
    && (forall k :: k in s.keys && s.keys[k] == d ==>
          && k in t.keys && t.keys[k] == d
          && (FindKey(s.ledger.headers, k).None? ==> FindKey(t.ledger.headers, k).None?))
    && (forall x :: x in s.revs && s.revs[x] == d ==>
          && x in t.revs && t.revs[x] == d
          && (!Reversed(s.ledger.headers, x) ==> !Reversed(t.ledger.headers, x)))
    && (forall i :: i in s.ids ==> i in t.ids && t.ids[i] == s.ids[i])
    && (forall i :: i in s.ids && s.ids[i] == Some(d) && FindId(s.ledger.headers, i).None? ==>
          FindId(t.ledger.headers, i).None?)
  }

  lemma SettledStable(l: Ledger, n: Ledger, r: Request, m: Move)
    requires Extends(l, n) && Settled(l, r, m)
    ensures Settled(n, r, m)
  {
    if r.ReverseReq? {
      var j: nat :| Mirrors(l, m, r.original, j);
      PairedStable(l, n, j);
      assert Mirrors(n, m, r.original, j);
    }
  }

  lemma TxStable(s: State, t: State, d: CallId, r: Request, tx: Tx)
    requires Stable(s, t, d) && TxOk(s, d, r, tx)
    ensures TxOk(t, d, r, tx)
  {
    SettledStable(s.ledger, t.ledger, r, tx.move);
  }

  /** Rely: a call's knowledge survives every step it does not take itself. */
  lemma CallStable(s: State, t: State, d: CallId)
    requires Stable(s, t, d) && CallOk(s, d)
    ensures CallOk(t, d)
  {
    var r, l, n := s.calls[d].req, s.ledger, t.ledger;
    match s.calls[d].pc
    case NewId(m) => SettledStable(l, n, r, m);
    case Begin(m, _) => SettledStable(l, n, r, m);
    case InTx(tx, _) => TxStable(s, t, d, r, tx);
    case RefetchHeader(m) => SettledStable(l, n, r, m);
    case RefetchEntries(m, _) => SettledStable(l, n, r, m);
    case AuditFailure(e, about) =>
      if about != Asked(r) { SettledStable(l, n, r, about.value); }
    case AuditSuccess(tx) =>
      SettledStable(l, n, r, tx.move);
      RecordedStable(l, n, tx.header.value, tx.legs);
    case Returned(o) =>
      if o.Ok? { RecordedStable(l, n, o.header, o.legs); }
    case _ =>
  }
}
