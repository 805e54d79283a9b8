/** Whose request a returned transaction answers.  A key is looked up without comparing
    requests, so a call may be given a transaction that somebody else asked for. */
module Attribution {
  import opened Base
  import opened Serial
  import opened LedgerInvariant
  import opened Protocol
  import opened Invariant
  import opened Steps

  // ---------- What is asked for ----------

  /** The movement request r asks for; for a reversal, that of its original, backwards. */
  function Wish(l: Ledger, r: Request): Option<Move> {
    match r
    case ReverseReq(original, key) => (
      match FindId(l.headers, original)
      case Some(h) =>
        if h.kind == Transfer then Some(ReversalMove(original, key, EntriesOf(l.entries, h.id))) else None
      case None => None)
    case TransferReq(src, dst, amount, key) => Some(Move(Transfer, src, dst, amount, key, None))
    case DepositReq(dst, amount, key) => Some(Move(Deposit, EXTERNAL, dst, amount, key, None))
    case CreateReq => None
  }

  /** The deposits of the seed migration. */
  function SeedWish(h: Header): Option<Move> {
    if h.id == SEED_TX + 1 then Some(SeedMove(2, h.key))
    else if h.id == SEED_TX + 2 then Some(SeedMove(3, h.key))
    else if h.id == SEED_TX + 3 then Some(SeedMove(4, h.key))
    else None
  }

  /** The movement asked for by whoever committed h: the call that was given its id, or the seed. */
  function CommittersWish(s: State, h: Header): Option<Move> {
    if h.id !in s.ids then None
    else
      match s.ids[h.id]
      case None => SeedWish(h)
      case Some(d) => if d in s.calls then Wish(s.ledger, s.calls[d].req) else None
  }

  /** The same two accounts and the same amount. */
  predicate SameMovement(m: Move, n: Move) {
    m.debit == n.debit && m.credit == n.credit && m.amount == n.amount
  }

  lemma SettledIsWish(l: Ledger, r: Request, m: Move)
    requires HistoryOk(l) && Settled(l, r, m)
    ensures Wish(l, r) == Some(m)
  {
    if r.ReverseReq? {
      MirrorIsCurrent(l, m, r.original);
      var h := FindId(l.headers, r.original).value;
      assert ReversalMove(r.original, r.key, EntriesOf(l.entries, h.id)) == m;
    }
  }

  // ---------- Every committed transaction has a committer ----------

  /** h is what its committer asked for. */
  ghost predicate Attributed(s: State, h: Header) {
    && h.id in s.ids
    && match s.ids[h.id]
       case None =>
         SeedWish(h).Some? && Granted(s.ledger, h, SeedWish(h).value)
       case Some(d) =>
         && d in s.calls && LogEntry(d, s.calls[d].req, h.id) in s.log
         && exists m :: Settled(s.ledger, s.calls[d].req, m) && Granted(s.ledger, h, m)
  }

  ghost predicate Granted(l: Ledger, h: Header, m: Move) {
    h == HeaderOf(m, h.id) && Recorded(l, h, LegsOf(m, h.id))
  }

  lemma AttributedStays(s: State, t: State, h: Header)
    requires Attributed(s, h) && Extends(s.ledger, t.ledger) && s.log <= t.log
    requires h.id in t.ids && t.ids[h.id] == s.ids[h.id]
    requires forall d :: d in s.calls ==> d in t.calls && t.calls[d].req == s.calls[d].req
    ensures Attributed(t, h)
  {
    match s.ids[h.id]
    case None =>
      RecordedStable(s.ledger, t.ledger, h, LegsOf(SeedWish(h).value, h.id));
    case Some(d) =>
      var m :| Settled(s.ledger, s.calls[d].req, m) && Granted(s.ledger, h, m);
      SettledStable(s.ledger, t.ledger, s.calls[d].req, m);
      RecordedStable(s.ledger, t.ledger, h, LegsOf(m, h.id));
      assert Granted(t.ledger, h, m);
  }

  lemma StepKeeps(s: State, ev: Event)
    requires Enabled(s, ev)
    ensures var t := Next(s, ev);
            && s.log <= t.log
            && (forall i :: i in s.ids ==> i in t.ids && t.ids[i] == s.ids[i])
            && (forall d :: d in s.calls ==> d in t.calls && t.calls[d].req == s.calls[d].req)
  {
    if ev.Run? { StepDisciplined(s, ev); }
  }

  lemma NewHeader(s: State, ev: Event, h: Header)
    requires Inv(s) && Enabled(s, ev) && h in Next(s, ev).ledger.headers && h !in s.ledger.headers
    ensures Attributed(Next(s, ev), h)
  {
    InvStep(s, ev);
    var tx := PostedNow(s, ev, h);
    NewlyGranted(s, ev, tx);
  }

  lemma PostedNow(s: State, ev: Event, h: Header) returns (tx: Tx)
    requires Enabled(s, ev) && h in Next(s, ev).ledger.headers && h !in s.ledger.headers
    ensures ev.Run? && EffectOf(s, ev).write == PostTx(tx) && EffectOf(s, ev).pc == AuditSuccess(tx)
    ensures tx.header == Some(h)
  {
    StepDisciplined(s, ev);
    tx := EffectOf(s, ev).write.tx;
  }

  lemma NewlyGranted(s: State, ev: Event, tx: Tx)
    requires ev.Run? && Enabled(s, ev) && EffectOf(s, ev).write == PostTx(tx) && EffectOf(s, ev).pc == AuditSuccess(tx)
    requires CallOk(Next(s, ev), ev.call)
    ensures tx.header.Some? && Attributed(Next(s, ev), tx.header.value)
  {
    var t, c := Next(s, ev), ev.call;
    assert Granted(t.ledger, tx.header.value, tx.move);
    assert t.log[|s.log|] == LogEntry(c, t.calls[c].req, tx.id);
  }

  lemma SeedRecorded(l: Ledger, a: string, b: string, c: string, k: nat)
    requires l == SeedWith(a, b, c) && HistoryOk(l) && k < 3
    ensures k < |l.headers| && SeedWish(l.headers[k]).Some? && Granted(l, l.headers[k], SeedWish(l.headers[k]).value)
  {
    assert TxnOk(l, k);
    assert RecordedAt(l, l.headers[k], LegsOf(SeedWish(l.headers[k]).value, l.headers[k].id), k);
  }

  lemma SeedAttributed(pool: nat, h: Header)
    requires h in Seed().headers
    ensures Attributed(Init(pool), h)
  {
    SeedOk();
    var k: nat :| k < |Seed().headers| && Seed().headers[k] == h;
    SeedRecorded(Seed(), "seed-deposit-alice-001", "seed-deposit-bob-001", "seed-deposit-charlie-001", k);
  }

  lemma {:induction false} AttributedRun(pool: nat, evs: seq<Event>, s: State, h: Header)
    requires Reaches(Init(pool), evs, s) && h in s.ledger.headers
    ensures Attributed(s, h)
  {
    if evs == [] {
      SeedAttributed(pool, h);
    } else {
      var n := |evs| - 1;
      var u := Exec(Init(pool), evs[..n]).value;
      InvRun(pool, evs[..n], u);
      if h in u.ledger.headers {
        AttributedRun(pool, evs[..n], u, h);
        LedgerStep(u, evs[n]);
        StepKeeps(u, evs[n]);
        AttributedStays(u, s, h);
      } else {
        NewHeader(u, evs[n], h);
      }
    }
  }

  // ---------- Main result ----------

  lemma AttributedWish(s: State, h: Header, legs: seq<Entry>)
    requires HistoryOk(s.ledger) && Attributed(s, h) && Recorded(s.ledger, h, legs)
    ensures var m := CommittersWish(s, h);
            m.Some? && h == HeaderOf(m.value, h.id) && legs == LegsOf(m.value, h.id)
  {
    RecordedUnique(s.ledger, h, legs);
    match s.ids[h.id]
    case None =>
      RecordedUnique(s.ledger, h, LegsOf(SeedWish(h).value, h.id));
    case Some(d) =>
      var m :| Settled(s.ledger, s.calls[d].req, m) && Granted(s.ledger, h, m);
      SettledIsWish(s.ledger, s.calls[d].req, m);
      RecordedUnique(s.ledger, h, LegsOf(m, h.id));
  }

  /** A call that returns success is given exactly the movement asked for by whoever committed
      its key: the call that was given the transaction's id and is in the commit log, or the
      seed.  So the legs are the movement of its own request if and only if the committer
      asked for the same movement; for a reversal, if its original moved the same amount the
      other way. */
  lemma RepliesMatchExactly(pool: nat, evs: seq<Event>, s: State, c: CallId)
    requires Reaches(Init(pool), evs, s) && c in s.calls && s.calls[c].pc.Returned? && s.calls[c].pc.outcome.Ok?
    ensures var h, legs := s.calls[c].pc.outcome.header, s.calls[c].pc.outcome.legs;
            var mine, theirs := Wish(s.ledger, s.calls[c].req), CommittersWish(s, h);
            && theirs.Some? && h == HeaderOf(theirs.value, h.id) && legs == LegsOf(theirs.value, h.id)
            && h.id in s.ids
            && (s.ids[h.id].Some? ==>
                  var d := s.ids[h.id].value; d in s.calls && LogEntry(d, s.calls[d].req, h.id) in s.log)
            && (mine.Some? && legs == LegsOf(mine.value, h.id) <==>
                mine.Some? && SameMovement(mine.value, theirs.value))
  {
    InvRun(pool, evs, s);
    assert CallOk(s, c);
    var o := s.calls[c].pc.outcome;
    RecordedUnique(s.ledger, o.header, o.legs);
    AttributedRun(pool, evs, s, o.header);
    AttributedWish(s, o.header, o.legs);
    var theirs, mine := CommittersWish(s, o.header).value, Wish(s.ledger, s.calls[c].req);
    if mine.Some? { LegsAreMovement(mine.value, theirs, o.header.id); }
  }

  lemma LegsAreMovement(m: Move, n: Move, id: TxId)
    ensures LegsOf(m, id) == LegsOf(n, id) <==> SameMovement(m, n)
  {
    if LegsOf(m, id) == LegsOf(n, id) {
      assert LegsOf(m, id)[0] == LegsOf(n, id)[0] && LegsOf(m, id)[1] == LegsOf(n, id)[1];
    }
  }
}
