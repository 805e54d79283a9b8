/** What each request does, told in the request's own fields: which accounts it debits and
    credits, by how much, which rows it adds, and every way it can stop. */
module Requests {
  import opened Base
  import opened Serial
  import opened LedgerInvariant
  import opened Protocol
  import opened Invariant
  import opened Steps
  import opened Attribution

  // ---------- The three ways a request can end ----------

  /** One transaction is added: amount leaves payer and reaches payee, nothing else changes. */
  predicate Moves(l: Ledger, res: (Ledger, Outcome), h: Header, payer: AccountId, payee: AccountId, amount: int) {
    var n, legs := res.0, [Entry(h.id, payer, Debit, amount), Entry(h.id, payee, Credit, amount)];
    && res.1 == Ok(h, legs)
    && n.headers == l.headers + [h] && n.entries == l.entries + legs
    && n.accounts.Keys == l.accounts.Keys && payer in l.accounts && payee in l.accounts && payer != payee
    && n.accounts[payer] == Account(l.accounts[payer].balance - amount, l.accounts[payer].isSystem)
    && n.accounts[payee] == Account(l.accounts[payee].balance + amount, l.accounts[payee].isSystem)
    && forall a :: a in l.accounts && a != payer && a != payee ==> n.accounts[a] == l.accounts[a]
  }

  predicate Stops(l: Ledger, res: (Ledger, Outcome), e: Error) {
    res.0 == l && res.1 == Err(e)
  }

  /** The transaction committed under the key is returned, and nothing changes. */
  predicate Replays(l: Ledger, res: (Ledger, Outcome), key: string) {
    && res.0 == l && res.1.Ok? && res.1.header in l.headers && res.1.header.key == key
    && res.1.legs == EntriesOf(l.entries, res.1.header.id)
  }

  predicate Taken(l: Ledger, key: string) {
    exists h :: h in l.headers && h.key == key
  }

  // ---------- Alone ----------

  lemma PostMoves(l: Ledger, m: Move, id: TxId)
    requires LedgerOk(l) && Sound(l, m) && m.debit in l.accounts && m.credit in l.accounts
    requires m.kind != Deposit ==> l.accounts[m.debit].balance >= m.amount
    requires Fits(l.accounts[m.debit].balance - m.amount)
    requires m.reverses.Some? ==> !Reversed(l.headers, m.reverses.value)
    ensures Moves(l, Post(l, m, id), Header(id, m.kind, m.key, m.reverses), m.debit, m.credit, m.amount)
  {
    SoundFacts(l, m);
    OnlyDepositsOverflow(l, m);
    assert Obstacle(l, m).None?;
  }

  predicate Deposits(l: Ledger, res: (Ledger, Outcome), dst: AccountId, amount: int, key: string, id: TxId) {
    if amount <= 0 then Stops(l, res, InvalidAmount)
    else if dst == EXTERNAL then Stops(l, res, SystemAccount)
    else if Taken(l, key) then Replays(l, res, key)
    else if dst !in l.accounts then Stops(l, res, AccountNotFound)
    else if EXTERNAL in l.accounts && l.accounts[EXTERNAL].balance - amount <= -LIMIT then
      Stops(l, res, NumericOverflow)
    else Moves(l, res, Header(id, Deposit, key, None), EXTERNAL, dst, amount)
  }

  lemma DepositDoes(l: Ledger, dst: AccountId, amount: int, key: string, id: TxId)
    requires LedgerOk(l)
    ensures Deposits(l, Atomic(l, DepositReq(dst, amount, key), id), dst, amount, key, id)
  {
    var m := Move(Deposit, EXTERNAL, dst, amount, key, None);
    assert AccountOk(l, EXTERNAL);
    if amount > 0 && dst != EXTERNAL && !Taken(l, key) && dst in l.accounts
       && l.accounts[EXTERNAL].balance - amount > -LIMIT {
      PostMoves(l, m, id);
    }
  }

  predicate Transfers(l: Ledger, res: (Ledger, Outcome), src: AccountId, dst: AccountId, amount: int, key: string,
                      id: TxId) {
    if amount <= 0 then Stops(l, res, InvalidAmount)
    else if src == dst then Stops(l, res, SelfTransfer)
    else if src == EXTERNAL || dst == EXTERNAL then Stops(l, res, SystemAccount)
    else if Taken(l, key) then Replays(l, res, key)
    else if src !in l.accounts || dst !in l.accounts then Stops(l, res, AccountNotFound)
    else if l.accounts[src].balance < amount then Stops(l, res, InsufficientFunds)
    else Moves(l, res, Header(id, Transfer, key, None), src, dst, amount)
  }

  lemma TransferDoes(l: Ledger, src: AccountId, dst: AccountId, amount: int, key: string, id: TxId)
    requires LedgerOk(l)
    ensures Transfers(l, Atomic(l, TransferReq(src, dst, amount, key), id), src, dst, amount, key, id)
  {
    var m := Move(Transfer, src, dst, amount, key, None);
    if amount > 0 && src != dst && src != EXTERNAL && dst != EXTERNAL && !Taken(l, key)
       && src in l.accounts && dst in l.accounts && l.accounts[src].balance >= amount {
      OnlyDepositsOverflow(l, m);
      PostMoves(l, m, id);
    }
  }

  /** Transaction `tx` debits payer and credits payee by amount. */
  predicate Legs(l: Ledger, tx: TxId, payer: AccountId, payee: AccountId, amount: int) {
    EntriesOf(l.entries, tx) == [Entry(tx, payer, Debit, amount), Entry(tx, payee, Credit, amount)]
  }

  /** What reversing a transfer from src to dst does, under a free key. */
  predicate Undoing(l: Ledger, res: (Ledger, Outcome), h: Header, src: AccountId, dst: AccountId, amount: int)
    requires h.reverses.Some?
  {
    && Legs(l, h.reverses.value, src, dst, amount) && src in l.accounts && dst in l.accounts
    && if l.accounts[dst].balance < amount then Stops(l, res, InsufficientFunds)
       else if Reversed(l.headers, h.reverses.value) then Stops(l, res, AlreadyReversed)
       else Moves(l, res, h, dst, src, amount)
  }

  ghost predicate Reverses(l: Ledger, res: (Ledger, Outcome), original: TxId, key: string, id: TxId) {
    if Taken(l, key) then Replays(l, res, key)
    else if forall h :: h in l.headers ==> h.id != original then Stops(l, res, TransactionNotFound)
    else if exists h :: h in l.headers && h.id == original && h.kind != Transfer then Stops(l, res, NotReversible)
    else exists src, dst, amount :: Undoing(l, res, Header(id, Reversal, key, Some(original)), src, dst, amount)
  }

  lemma ReversalDoes(l: Ledger, original: TxId, key: string, id: TxId)
    requires LedgerOk(l)
    ensures Reverses(l, Atomic(l, ReverseReq(original, key), id), original, key, id)
  {
    var found := FindId(l.headers, original);
    if found.Some? {
      if h :| h in l.headers && h.id == original && h.kind != Transfer {
        SameKeySameHeader(l, h, found.value);
      } else if !Taken(l, key) {
        UndoingFound(l, found.value, key, id);
      }
    }
  }

  /** A committed transfer's two legs, and that both accounts exist. */
  lemma TransferLegs(l: Ledger, h: Header) returns (src: AccountId, dst: AccountId, amount: int)
    requires LedgerOk(l) && h in l.headers
    ensures Legs(l, h.id, src, dst, amount) && src in l.accounts && dst in l.accounts
    ensures ScanLegs(EntriesOf(l.entries, h.id)) == Scanned(src, dst, amount)
  {
    var i: nat :| i < |l.headers| && l.headers[i] == h;
    EntriesOfTxn(l, i);
    assert TxnOk(l, i);
    TwoLegs(l.entries[2 * i], l.entries[2 * i + 1]);
    src, dst, amount := l.entries[2 * i].account, l.entries[2 * i + 1].account, l.entries[2 * i].amount;
  }

  lemma UndoingFound(l: Ledger, h: Header, key: string, id: TxId)
    requires LedgerOk(l) && FindId(l.headers, h.id) == Some(h) && h.kind == Transfer && !Taken(l, key)
    ensures exists src, dst, amount ::
              Undoing(l, Atomic(l, ReverseReq(h.id, key), id), Header(id, Reversal, key, Some(h.id)), src, dst, amount)
  {
    var src, dst, amount := TransferLegs(l, h);
    var m := Move(Reversal, dst, src, amount, key, Some(h.id));
    FetchedSettled(l, ReverseReq(h.id, key), h);
    SettledSound(l, ReverseReq(h.id, key), m);
    SoundFacts(l, m);
    assert Atomic(l, ReverseReq(h.id, key), id) == Post(l, m, id);
    UndoingPosts(l, m, id, src, dst, amount);
    assert Undoing(l, Post(l, m, id), Header(id, Reversal, key, Some(h.id)), src, dst, amount);
  }

  lemma UndoingPosts(l: Ledger, m: Move, id: TxId, src: AccountId, dst: AccountId, amount: int)
    requires LedgerOk(l) && m.reverses.Some? && m == Move(Reversal, dst, src, amount, m.key, m.reverses) && Sound(l, m)
    requires Legs(l, m.reverses.value, src, dst, amount) && src in l.accounts && dst in l.accounts
    ensures Undoing(l, Post(l, m, id), Header(id, Reversal, m.key, m.reverses), src, dst, amount)
  {
    SoundFacts(l, m);
    if l.accounts[dst].balance >= amount {
      OnlyDepositsOverflow(l, m);
      if !Reversed(l.headers, m.reverses.value) { PostMoves(l, m, id); }
    }
  }

  // ---------- In every run ----------

  /** Log entry e is a committed transaction with exactly the fields its request asked for. */
  ghost predicate AsAsked(l: Ledger, e: LogEntry) {
    match e.req
    case TransferReq(src, dst, amount, key) =>
      Header(e.id, Transfer, key, None) in l.headers && Legs(l, e.id, src, dst, amount)
    case DepositReq(dst, amount, key) =>
      Header(e.id, Deposit, key, None) in l.headers && Legs(l, e.id, EXTERNAL, dst, amount)
    case ReverseReq(original, key) =>
      && Header(e.id, Reversal, key, Some(original)) in l.headers
      && exists src, dst, amount :: Legs(l, original, src, dst, amount) && Legs(l, e.id, dst, src, amount)
    case CreateReq =>
      e.id in l.accounts
  }

  /** What the commit of a log entry leaves behind, as the invariant has it. */
  ghost predicate Logs(l: Ledger, e: LogEntry) {
    if e.req.CreateReq? then e.id in l.accounts
    else exists m :: Settled(l, e.req, m) && Granted(l, HeaderOf(m, e.id), m)
  }

  lemma LogsStay(l: Ledger, n: Ledger, e: LogEntry)
    requires Extends(l, n) && Logs(l, e)
    ensures Logs(n, e)
  {
    if !e.req.CreateReq? {
      var m :| Settled(l, e.req, m) && Granted(l, HeaderOf(m, e.id), m);
      SettledStable(l, n, e.req, m);
      RecordedStable(l, n, HeaderOf(m, e.id), LegsOf(m, e.id));
      assert Granted(n, HeaderOf(m, e.id), m);
    }
  }

  lemma SuccessLogs(s: State, c: CallId, tx: Tx)
    requires c in s.calls && s.calls[c].pc == AuditSuccess(tx) && CallOk(s, c)
    ensures Logs(s.ledger, LogEntry(c, s.calls[c].req, tx.id))
  {
    assert Granted(s.ledger, HeaderOf(tx.move, tx.id), tx.move);
  }

  /** A step that writes adds one log entry; what it wrote and where it left the call. */
  lemma WriteLogs(s: State, ev: Event)
    requires ev.Run? && Enabled(s, ev) && CallOk(s, ev.call) && Next(s, ev).log != s.log
    ensures var t, w := Next(s, ev), EffectOf(s, ev).write;
            || (w.PostTx? && t.calls[ev.call].pc == AuditSuccess(w.tx)
                && t.log == s.log + [LogEntry(ev.call, s.calls[ev.call].req, w.tx.id)])
            || (w.OpenAccount? && s.calls[ev.call].req.CreateReq? && w.account in t.ledger.accounts
                && t.log == s.log + [LogEntry(ev.call, s.calls[ev.call].req, w.account)])
  {
    StepDisciplined(s, ev);
  }

  lemma NewLog(s: State, ev: Event, e: LogEntry)
    requires ev.Run? && Enabled(s, ev) && CallOk(s, ev.call) && CallOk(Next(s, ev), ev.call)
    requires e in Next(s, ev).log && e !in s.log
    ensures Logs(Next(s, ev).ledger, e)
  {
    WriteLogs(s, ev);
    var w := EffectOf(s, ev).write;
    if w.PostTx? { SuccessLogs(Next(s, ev), ev.call, w.tx); }
  }

  lemma {:induction false} LogsRun(pool: nat, evs: seq<Event>, s: State, e: LogEntry)
    requires Reaches(Init(pool), evs, s) && e in s.log
    ensures Logs(s.ledger, e)
  {
    var n := |evs| - 1;
    var u := Exec(Init(pool), evs[..n]).value;
    InvRun(pool, evs[..n], u);
    LedgerStep(u, evs[n]);
    if e in u.log {
      LogsRun(pool, evs[..n], u, e);
      LogsStay(u.ledger, s.ledger, e);
    } else {
      InvRun(pool, evs, s);
      assert CallOk(u, evs[n].call) && CallOk(s, evs[n].call);
      NewLog(u, evs[n], e);
    }
  }

  lemma SettledFields(l: Ledger, e: LogEntry, m: Move)
    requires LedgerOk(l) && Settled(l, e.req, m) && Granted(l, HeaderOf(m, e.id), m)
    ensures AsAsked(l, e)
  {
    RecordedUnique(l, HeaderOf(m, e.id), LegsOf(m, e.id));
    if e.req.ReverseReq? {
      MirrorIsCurrent(l, m, e.req.original);
      var src, dst, amount := TransferLegs(l, FindId(l.headers, e.req.original).value);
      assert Legs(l, e.req.original, src, dst, amount) && Legs(l, e.id, dst, src, amount);
    }
  }

  /** In every run, every call in the commit log has a committed transaction with its own
      key, kind, accounts and amount, and no other transaction has that id or that key. */
  lemma CommittedAsAsked(pool: nat, evs: seq<Event>, s: State, e: LogEntry)
    requires Reaches(Init(pool), evs, s) && e in s.log
    ensures AsAsked(s.ledger, e)
    ensures !e.req.CreateReq? ==>
              exists h :: h in s.ledger.headers && h.id == e.id && h.key == e.req.key
                          && forall g :: g in s.ledger.headers && (g.id == h.id || g.key == h.key) ==> g == h
  {
    InvRun(pool, evs, s);
    LogsRun(pool, evs, s, e);
    if !e.req.CreateReq? {
      var m :| Settled(s.ledger, e.req, m) && Granted(s.ledger, HeaderOf(m, e.id), m);
      SettledFields(s.ledger, e, m);
      SettledSound(s.ledger, e.req, m);
      OneHolder(s.ledger, HeaderOf(m, e.id));
    }
  }

  lemma OneHolder(l: Ledger, h: Header)
    requires HistoryOk(l) && h in l.headers
    ensures forall g :: g in l.headers && (g.id == h.id || g.key == h.key) ==> g == h
  {
    forall g | g in l.headers && (g.id == h.id || g.key == h.key) ensures g == h {
      SameKeySameHeader(l, g, h);
    }
  }

  ghost predicate AskedFor(s: State, h: Header) {
    exists e :: e in s.log && e.id == h.id && !e.req.CreateReq? && e.req.key == h.key
  }

  /** And the log misses none: every committed transaction is a seed deposit or is in it. */
  lemma {:induction false} NothingUnasked(pool: nat, evs: seq<Event>, s: State, h: Header)
    requires Reaches(Init(pool), evs, s) && h in s.ledger.headers
    ensures h in Seed().headers || AskedFor(s, h)
  {
    if evs != [] {
      var n := |evs| - 1;
      var u := Exec(Init(pool), evs[..n]).value;
      if h in u.ledger.headers {
        NothingUnasked(pool, evs[..n], u, h);
        StepKeeps(u, evs[n]);
      } else {
        InvRun(pool, evs, s);
        var tx := PostedNow(u, evs[n], h);
        PostedLogged(s, evs[n].call, tx, u.log);
      }
    }
  }

  lemma PostedLogged(s: State, c: CallId, tx: Tx, before: seq<LogEntry>)
    requires c in s.calls && s.calls[c].pc == AuditSuccess(tx) && CallOk(s, c)
    requires s.log == before + [LogEntry(c, s.calls[c].req, tx.id)]
    ensures AskedFor(s, tx.header.value)
  {
    SettledSound(s.ledger, s.calls[c].req, tx.move);
    assert s.log[|before|].id == tx.id;
  }

  /** Log entry e asked for the transaction h, and got it. */
  ghost predicate Answers(l: Ledger, e: LogEntry, h: Header) {
    e.id == h.id && !e.req.CreateReq? && e.req.key == h.key && AsAsked(l, e)
  }

  /** A call that returns success is given a transaction under its own key, committed with
      exactly these legs: a seed deposit, or what a call in the commit log asked for. */
  lemma RepliesAreCommitted(pool: nat, evs: seq<Event>, s: State, c: CallId)
    requires Reaches(Init(pool), evs, s) && c in s.calls && s.calls[c].pc.Returned? && s.calls[c].pc.outcome.Ok?
    ensures var h, legs := s.calls[c].pc.outcome.header, s.calls[c].pc.outcome.legs;
            && h in s.ledger.headers && legs == EntriesOf(s.ledger.entries, h.id)
            && !s.calls[c].req.CreateReq? && h.key == s.calls[c].req.key
            && (h in Seed().headers || exists e :: e in s.log && Answers(s.ledger, e, h))
  {
    InvRun(pool, evs, s);
    assert CallOk(s, c);
    var o := s.calls[c].pc.outcome;
    RecordedUnique(s.ledger, o.header, o.legs);
    NothingUnasked(pool, evs, s, o.header);
    if o.header !in Seed().headers {
      var e :| e in s.log && e.id == o.header.id && !e.req.CreateReq? && e.req.key == o.header.key;
      CommittedAsAsked(pool, evs, s, e);
      assert Answers(s.ledger, e, o.header);
    }
  }

  // ---------- In the audit log ----------

  /** What the FAILURE row of a request says: its own accounts and amount; for a reversal,
      nothing when it stopped before it begun its transaction, and otherwise the original's
      payee, payer and amount as they stand in the committed entries. */
  predicate FailedFields(l: Ledger, r: Request, row: AuditRow, begun: bool) {
    match r
    case TransferReq(src, dst, amount, _) =>
      row.op == Transfer && row.payer == Some(src) && row.payee == Some(dst) && row.amount == Some(amount)
    case DepositReq(dst, amount, _) =>
      row.op == Deposit && row.payer == Some(EXTERNAL) && row.payee == Some(dst) && row.amount == Some(amount)
    case ReverseReq(original, _) =>
      && row.op == Reversal
      && if begun then
           && row.payer.Some? && row.payee.Some? && row.amount.Some?
           && Legs(l, original, row.payee.value, row.payer.value, row.amount.value)
         else row.payer == None && row.payee == None && row.amount == None
    case CreateReq => false
  }

  /** The row the service builds from what it settled on says so. */
  lemma FailedRowSays(l: Ledger, r: Request, about: Option<Move>, row: AuditRow, e: Error, begun: bool)
    requires LedgerOk(l) && AboutOk(l, r, about) && Some(row) == Rows(row.writer, KindOf(r), about, Failed(e))
    requires r.ReverseReq? ==> (about.Some? <==> begun)
    ensures FailedFields(l, r, row, begun)
  {
    if r.ReverseReq? && begun {
      MirrorIsCurrent(l, about.value, r.original);
      var src, dst, amount := TransferLegs(l, FindId(l.headers, r.original).value);
    }
  }
}
