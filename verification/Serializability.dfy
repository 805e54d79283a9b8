/** Every interleaving is equivalent to running the committed calls one at a time, in the
    order they committed. */
module Serializability {
  import opened Base
  import opened Serial
  import opened LedgerInvariant
  import opened Protocol
  import opened Invariant
  import opened Steps

  /** The ledger left by running the logged calls one at a time from the seed. */
  function SerialLedger(log: seq<LogEntry>): Ledger {
    if log == [] then Seed()
    else
      var last := log[|log| - 1];
      Atomic(SerialLedger(log[..|log| - 1]), last.req, last.id).0
  }

  /** What the i-th logged call returns in that serial run. */
  function SerialOutcome(log: seq<LogEntry>, i: nat): Outcome
    requires i < |log|
  {
    Atomic(SerialLedger(log[..i]), log[i].req, log[i].id).1
  }

  /** What a call that has committed returns, or will return once it has audited. */
  function Decided(pc: Pc): Option<Outcome> {
    match pc
    case AuditSuccess(tx) => if tx.header.Some? then Some(Ok(tx.header.value, tx.legs)) else None
    case Returned(o) => Some(o)
    case _ => None
  }

  ghost predicate EntryOk(s: State, i: nat)
    requires i < |s.log|
  {
    var c := s.log[i].call;
    && c in s.calls && s.calls[c].req == s.log[i].req
    && Decided(s.calls[c].pc) == Some(SerialOutcome(s.log, i))
    && !SerialOutcome(s.log, i).Err?
  }

  ghost predicate Serialized(s: State) {
    && SerialLedger(s.log) == s.ledger
    && (forall i: nat :: i < |s.log| ==> EntryOk(s, i))
    && (forall i, j :: 0 <= i < j < |s.log| ==> s.log[i].call != s.log[j].call)
  }

  // ---------- A commit is one atomic call ----------

  lemma NoObstacle(l: Ledger, m: Move, id: TxId)
    requires LedgerOk(l) && Postable(l, m, id)
    ensures Obstacle(l, m) == None
  {
    SoundFacts(l, m);
    OnlyDepositsOverflow(l, m);
  }

  /** A request whose settled movement can be posted does exactly that when run alone. */
  lemma AtomicPosts(l: Ledger, r: Request, m: Move, id: TxId)
    requires LedgerOk(l) && Settled(l, r, m) && Postable(l, m, id)
    ensures Atomic(l, r, id) == (Posted(l, m, id), Ok(HeaderOf(m, id), LegsOf(m, id)))
  {
    NoObstacle(l, m, id);
    if r.ReverseReq? {
      MirrorIsCurrent(l, m, r.original);
      var h := FindId(l.headers, r.original).value;
      assert ReversalMove(r.original, r.key, EntriesOf(l.entries, h.id)) == m;
    }
  }

  lemma CommitIsAtomic(s: State, c: CallId, tx: Tx)
    requires Inv(s) && c in s.calls && s.calls[c].pc == InTx(tx, Commit)
    ensures Atomic(s.ledger, s.calls[c].req, tx.id) ==
            (WriteLedger(s.ledger, PostTx(tx)), Ok(HeaderOf(tx.move, tx.id), LegsOf(tx.move, tx.id)))
    ensures tx.header == Some(HeaderOf(tx.move, tx.id)) && tx.legs == LegsOf(tx.move, tx.id)
  {
    AtItsStage(s, c);
    CommitIsPost(s, c, tx);
    AtomicPosts(s.ledger, s.calls[c].req, tx.move, tx.id);
  }

  // ---------- Each step ----------

  /** The log grew by one entry, run atomically on the ledger of the moment. */
  lemma Appended(s: State, t: State, entry: LogEntry)
    requires Serialized(s)
    requires t.log == s.log + [entry]
    requires entry.call in s.calls && Decided(s.calls[entry.call].pc) == None
    requires entry.call in t.calls && t.calls == s.calls[entry.call := Call(entry.req, t.calls[entry.call].pc)]
    requires Atomic(s.ledger, entry.req, entry.id).0 == t.ledger
    requires Decided(t.calls[entry.call].pc) == Some(Atomic(s.ledger, entry.req, entry.id).1)
    requires !Atomic(s.ledger, entry.req, entry.id).1.Err?
    ensures Serialized(t)
  {
    assert t.log[..|s.log|] == s.log;
    forall i: nat | i < |t.log| ensures EntryOk(t, i) {
      if i < |s.log| {
        assert t.log[..i] == s.log[..i];
        assert EntryOk(s, i);
      }
    }
    forall i | 0 <= i < |s.log| ensures s.log[i].call != entry.call {
      assert EntryOk(s, i);
    }
  }

  /** The log did not grow, and the stepping call's decided outcome, if any, did not change. */
  lemma Unchanged(s: State, t: State, c: CallId)
    requires Serialized(s) && t.log == s.log && t.ledger == s.ledger
    requires forall d :: d in s.calls ==> d in t.calls && t.calls[d].req == s.calls[d].req
    requires forall d :: d in s.calls && d != c ==> t.calls[d] == s.calls[d]
    requires c in s.calls && Decided(s.calls[c].pc).Some? ==> Decided(t.calls[c].pc) == Decided(s.calls[c].pc)
    ensures Serialized(t)
  {
    forall i: nat | i < |t.log| ensures EntryOk(t, i) {
      assert EntryOk(s, i);
    }
  }

  /** A step that writes nothing does not change an outcome already decided. */
  lemma DecidedStays(l: Ledger, c: CallId, call: Call, ok: bool, newId: TxId)
    requires !call.pc.Returned? && Decided(call.pc).Some?
    ensures Decided(Decide(l, c, call, ok, newId).pc) == Decided(call.pc)
  {
  }

  lemma CommitSerialized(s: State, c: CallId, tx: Tx, t: State)
    requires Inv(s) && Serialized(s) && c in s.calls && s.calls[c].pc == InTx(tx, Commit)
    requires t.ledger == WriteLedger(s.ledger, PostTx(tx)) && t.log == s.log + [LogEntry(c, s.calls[c].req, tx.id)]
    requires t.calls == s.calls[c := Call(s.calls[c].req, AuditSuccess(tx))]
    ensures Serialized(t)
  {
    CommitIsAtomic(s, c, tx);
    Appended(s, t, LogEntry(c, s.calls[c].req, tx.id));
  }

  lemma QuietStep(s: State, ev: Event)
    requires Serialized(s) && ev.Run? && Enabled(s, ev) && EffectOf(s, ev).write == Nothing
    ensures Serialized(Next(s, ev))
  {
    var c := ev.call;
    if Decided(s.calls[c].pc).Some? { DecidedStays(s.ledger, c, s.calls[c], ev.ok, ev.newId); }
    Unchanged(s, Next(s, ev), c);
  }

  lemma OpenSerialized(s: State, ev: Event, a: AccountId)
    requires Serialized(s) && ev.Run? && Enabled(s, ev) && CallOk(s, ev.call) && s.calls[ev.call].pc.CreateRow?
    requires EffectOf(s, ev).write == OpenAccount(a) && EffectOf(s, ev).pc == Returned(Created(a))
    ensures Serialized(Next(s, ev))
  {
    Appended(s, Next(s, ev), LogEntry(ev.call, s.calls[ev.call].req, a));
  }

  lemma SerializedStep(s: State, ev: Event)
    requires Inv(s) && Serialized(s) && Enabled(s, ev)
    ensures Serialized(Next(s, ev))
  {
    if ev.Arrive? {
      Unchanged(s, Next(s, ev), ev.call);
    } else {
      StepDisciplined(s, ev);
      match EffectOf(s, ev).write
      case Nothing => QuietStep(s, ev);
      case PostTx(tx) => CommitSerialized(s, ev.call, tx, Next(s, ev));
      case OpenAccount(a) =>
        assert CallOk(s, ev.call);
        OpenSerialized(s, ev, a);
    }
  }

  lemma {:induction false} SerializedRun(pool: nat, evs: seq<Event>, s: State)
    requires Reaches(Init(pool), evs, s)
    ensures Serialized(s)
  {
    if evs != [] {
      var t := Exec(Init(pool), evs[..|evs| - 1]).value;
      SerializedRun(pool, evs[..|evs| - 1], t);
      InvRun(pool, evs[..|evs| - 1], t);
      SerializedStep(t, evs[|evs| - 1]);
    }
  }

  // ---------- Main results ----------

  /** Serializability: in every state of every run, the committed accounts, transactions and
      entries are those of a serial run of the committed calls in commit order, and each
      committed call returns what it returns there. */
  lemma Serializable(pool: nat, evs: seq<Event>, s: State)
    requires Reaches(Init(pool), evs, s)
    ensures s.ledger == SerialLedger(s.log)
    ensures forall i: nat :: i < |s.log| ==>
              && s.log[i].call in s.calls && s.calls[s.log[i].call].req == s.log[i].req
              && Decided(s.calls[s.log[i].call].pc) == Some(SerialOutcome(s.log, i))
    ensures forall i, j :: 0 <= i < j < |s.log| ==> s.log[i].call != s.log[j].call
  {
    SerializedRun(pool, evs, s);
    forall i: nat | i < |s.log|
      ensures
        && s.log[i].call in s.calls && s.calls[s.log[i].call].req == s.log[i].req
        && Decided(s.calls[s.log[i].call].pc) == Some(SerialOutcome(s.log, i))
    {
      assert EntryOk(s, i);
    }
  }

  lemma {:induction false} LogGrows(s: State, evs: seq<Event>, t: State)
    requires Reaches(s, evs, t)
    ensures s.log <= t.log && s.calls.Keys <= t.calls.Keys
  {
    if evs != [] {
      var u := Exec(s, evs[..|evs| - 1]).value;
      LogGrows(s, evs[..|evs| - 1], u);
    }
  }

  /** Strictness: a call that had already committed when another arrived precedes it in the
      serial order, in every continuation of the run. */
  lemma RealTimeOrder(pool: nat, evs: seq<Event>, s: State, more: seq<Event>, t: State, i: nat, j: nat)
    requires Reaches(Init(pool), evs, s) && Reaches(s, more, t)
    requires i < |s.log| && j < |t.log| && t.log[j].call !in s.calls
    ensures i < |t.log| && t.log[i] == s.log[i] && i < j
  {
    LogGrows(s, more, t);
    SerializedRun(pool, evs, s);
    forall k: nat | k < |s.log| ensures t.log[k].call in s.calls {
      assert EntryOk(s, k);
    }
  }
}
