/** The audit log tells the truth about the calls, whichever audit writes fail. */
module Audit {
  import opened Base
  import opened Serial
  import opened LedgerInvariant
  import opened Protocol
  import opened Invariant
  import opened Steps
  import opened Serializability
  import opened Erasure
  import opened Guarantees
  import opened Requests

  // ---------- Which calls were given a transaction id ----------

  /** Call c was given an id: a service call gets one just before it opens its transaction. */
  ghost predicate Given(s: State, c: CallId) {
    exists id :: id in s.ids && s.ids[id] == Some(c)
  }

  predicate BeforeId(pc: Pc) {
    pc.Validate? || pc.ReplayHeader? || pc.ReplayEntries? || pc.FetchHeader? || pc.FetchEntries? || pc.NewId?
  }

  predicate AfterId(pc: Pc) {
    pc.Begin? || pc.InTx? || pc.RefetchHeader? || pc.RefetchEntries? || pc.AuditSuccess?
  }

  /** A reversal that fails knows whom it is about if and only if it was given an id. */
  predicate GivenFits(call: Call, given: bool) {
    && (BeforeId(call.pc) ==> !given) && (AfterId(call.pc) ==> given)
    && (call.pc.AuditFailure? && call.req.ReverseReq? ==> (call.pc.about.Some? <==> given))
  }

  lemma GivenDecides(l: Ledger, c: CallId, call: Call, ok: bool, newId: TxId, given: bool)
    requires !call.pc.Returned? && GivenFits(call, given)
    ensures var e := Decide(l, c, call, ok, newId); GivenFits(Call(call.req, e.pc), given || e.id.Some?)
  {
  }

  lemma GivenStep(s: State, ev: Event, c: CallId)
    requires Enabled(s, ev)
    ensures Given(Next(s, ev), c) <==> Given(s, c) || (ev.Run? && ev.call == c && EffectOf(s, ev).id.Some?)
  {
    if ev.Run? {
      StepDisciplined(s, ev);
      var t, id := Next(s, ev), EffectOf(s, ev).id;
      if Given(s, c) {
        var i :| i in s.ids && s.ids[i] == Some(c);
        assert i in t.ids && t.ids[i] == Some(c);
      }
      if ev.call == c && id.Some? { assert id.value in t.ids && t.ids[id.value] == Some(c); }
    }
  }

  lemma {:induction false} GivenRun(pool: nat, evs: seq<Event>, s: State, c: CallId)
    requires Reaches(Init(pool), evs, s)
    ensures if c in s.calls then GivenFits(s.calls[c], Given(s, c)) else !Given(s, c)
  {
    if evs != [] {
      var n := |evs| - 1;
      var u, ev := Exec(Init(pool), evs[..n]).value, evs[n];
      GivenRun(pool, evs[..n], u, c);
      GivenStep(u, ev, c);
      if ev.Run? && ev.call == c { GivenDecides(u.ledger, c, u.calls[c], ev.ok, ev.newId, Given(u, c)); }
    }
  }

  // ---------- What a row says ----------

  /** A row is written by a call that has returned and says what it returned. */
  ghost predicate RowOk(s: State, row: AuditRow) {
    && row.writer in s.calls && s.calls[row.writer].pc.Returned?
    && var r, o := s.calls[row.writer].req, s.calls[row.writer].pc.outcome;
    && match row.result
       case Succeeded(id) =>
         && o.Ok? && |o.legs| == 2 && o.header.id == id && id in s.ids && s.ids[id] == Some(row.writer)
         && row == AuditRow(row.writer, o.header.kind, Some(o.legs[0].account), Some(o.legs[1].account),
                            Some(o.legs[0].amount), Succeeded(id))
       case Failed(e) =>
         && o == Err(e)
         && exists about ::
              && AboutOk(s.ledger, r, about) && Some(row) == Rows(row.writer, KindOf(r), about, Failed(e))
              && (r.ReverseReq? ==> (about.Some? <==> Given(s, row.writer)))
  }

  ghost predicate AuditOk(s: State) {
    && (forall i :: 0 <= i < |s.audit| ==> RowOk(s, s.audit[i]))
    && (forall i, j :: 0 <= i < j < |s.audit| ==> s.audit[i].writer != s.audit[j].writer)
  }

  lemma AboutStable(l: Ledger, n: Ledger, r: Request, about: Option<Move>)
    requires Extends(l, n) && AboutOk(l, r, about)
    ensures AboutOk(n, r, about)
  {
    if about != Asked(r) { SettledStable(l, n, r, about.value); }
  }

  /** Rows of other, already returned calls stay true. */
  lemma RowStays(s: State, t: State, row: AuditRow)
    requires RowOk(s, row) && Extends(s.ledger, t.ledger)
    requires row.writer in t.calls && t.calls[row.writer] == s.calls[row.writer]
    requires forall i :: i in s.ids ==> i in t.ids && t.ids[i] == s.ids[i]
    requires Given(t, row.writer) <==> Given(s, row.writer)
    ensures RowOk(t, row)
  {
    if row.result.Failed? {
      var r, e := s.calls[row.writer].req, row.result.error;
      var about :| && AboutOk(s.ledger, r, about) && Some(row) == Rows(row.writer, KindOf(r), about, Failed(e))
                   && (r.ReverseReq? ==> (about.Some? <==> Given(s, row.writer)));
      AboutStable(s.ledger, t.ledger, r, about);
    }
  }

  lemma NewRowOk(s: State, ev: Event)
    requires ev.Run? && Enabled(s, ev) && CallOk(s, ev.call) && EffectOf(s, ev).audit.Some?
    requires GivenFits(s.calls[ev.call], Given(s, ev.call))
    ensures RowOk(Next(s, ev), EffectOf(s, ev).audit.value)
  {
    var c, pc := ev.call, s.calls[ev.call].pc;
    if pc.AuditSuccess? {
      SettledSound(s.ledger, s.calls[c].req, pc.tx.move);
    } else {
      assert pc.AuditFailure?;
      var t := Next(s, ev);
      GivenStep(s, ev, c);
      assert AboutOk(t.ledger, t.calls[c].req, pc.about);
    }
  }

  lemma AuditShape(s: State, ev: Event)
    requires ev.Run? && Enabled(s, ev)
    ensures Next(s, ev).audit == s.audit + if EffectOf(s, ev).audit.Some? then [EffectOf(s, ev).audit.value] else []
    ensures EffectOf(s, ev).audit.Some? ==> EffectOf(s, ev).audit.value.writer == ev.call
  {
    DecideWriter(s.ledger, ev.call, s.calls[ev.call], ev.ok, ev.newId);
  }

  lemma OldRowsOk(s: State, ev: Event)
    requires Inv(s) && AuditOk(s) && Enabled(s, ev)
    ensures forall i :: 0 <= i < |s.audit| ==> s.audit[i].writer != ev.call && RowOk(Next(s, ev), s.audit[i])
  {
    forall i | 0 <= i < |s.audit| ensures s.audit[i].writer != ev.call && RowOk(Next(s, ev), s.audit[i]) {
      var row := s.audit[i];
      assert RowOk(s, row);
      Guarantee(s, ev, row.writer);
      GivenStep(s, ev, row.writer);
      RowStays(s, Next(s, ev), row);
    }
  }

  lemma AuditStep(s: State, ev: Event)
    requires Inv(s) && AuditOk(s) && Enabled(s, ev)
    requires ev.Run? ==> GivenFits(s.calls[ev.call], Given(s, ev.call))
    ensures AuditOk(Next(s, ev))
  {
    OldRowsOk(s, ev);
    if ev.Run? {
      assert CallOk(s, ev.call);
      AuditShape(s, ev);
      if EffectOf(s, ev).audit.Some? { NewRowOk(s, ev); }
    }
  }

  lemma {:induction false} AuditRun(pool: nat, evs: seq<Event>, s: State)
    requires Reaches(Init(pool), evs, s)
    ensures AuditOk(s)
  {
    if evs != [] {
      var t := Exec(Init(pool), evs[..|evs| - 1]).value;
      AuditRun(pool, evs[..|evs| - 1], t);
      InvRun(pool, evs[..|evs| - 1], t);
      GivenRun(pool, evs[..|evs| - 1], t, evs[|evs| - 1].call);
      AuditStep(t, evs[|evs| - 1]);
    }
  }

  // ---------- Main results ----------

  /** The row gives h's id, kind, debited and credited account, and amount. */
  predicate Describes(l: Ledger, row: AuditRow, h: Header) {
    && row.result == Succeeded(h.id) && row.op == h.kind
    && row.payer.Some? && row.payee.Some? && row.amount.Some?
    && EntriesOf(l.entries, h.id) == [Entry(h.id, row.payer.value, Debit, row.amount.value),
                                      Entry(h.id, row.payee.value, Credit, row.amount.value)]
  }

  /** A SUCCESS row names a committed transaction and gives its kind, its two accounts and
      its amount; two SUCCESS rows never name the same transaction. */
  lemma SuccessRowsAreCommits(pool: nat, evs: seq<Event>, s: State, i: nat)
    requires Reaches(Init(pool), evs, s) && i < |s.audit| && s.audit[i].result.Succeeded?
    ensures exists h :: h in s.ledger.headers && Describes(s.ledger, s.audit[i], h)
    ensures forall j :: 0 <= j < |s.audit| && j != i ==> s.audit[j].result != s.audit[i].result
  {
    InvRun(pool, evs, s);
    AuditRun(pool, evs, s);
    var row := s.audit[i];
    assert RowOk(s, row);
    assert CallOk(s, row.writer);
    var o := s.calls[row.writer].pc.outcome;
    RecordedReads(s.ledger, o.header, o.legs);
    var k: nat :| RecordedAt(s.ledger, o.header, o.legs, k);
    assert o.header in s.ledger.headers && Describes(s.ledger, row, o.header);
    forall j | 0 <= j < |s.audit| && j != i ensures s.audit[j].result != row.result {
      assert RowOk(s, s.audit[j]);
    }
  }

  /** A call writes at most one row, and only what matches its return: none when it replayed
      somebody else's transaction, none saying SUCCESS when it failed.  A FAILURE row has the
      request's own accounts and amount; a reversal's has the original's payee, payer and
      amount, or nothing if and only if the call was never given a transaction id. */
  lemma RowsMatchReturns(pool: nat, evs: seq<Event>, s: State, i: nat)
    requires Reaches(Init(pool), evs, s) && i < |s.audit|
    ensures s.audit[i].writer in s.calls && s.calls[s.audit[i].writer].pc.Returned?
    ensures var o := s.calls[s.audit[i].writer].pc.outcome;
            && !o.Created?
            && (o.Err? ==>
                  && s.audit[i].result == Failed(o.error)
                  && var c := s.audit[i].writer; FailedFields(s.ledger, s.calls[c].req, s.audit[i], Given(s, c)))
            && (o.Ok? ==>
                  && s.audit[i].result == Succeeded(o.header.id)
                  && o.header.id in s.ids && s.ids[o.header.id] == Some(s.audit[i].writer))
    ensures forall j :: 0 <= j < |s.audit| && j != i ==> s.audit[j].writer != s.audit[i].writer
  {
    InvRun(pool, evs, s);
    AuditRun(pool, evs, s);
    var row, c := s.audit[i], s.audit[i].writer;
    assert RowOk(s, row);
    if row.result.Failed? {
      var r, e := s.calls[c].req, row.result.error;
      var about :| && AboutOk(s.ledger, r, about) && Some(row) == Rows(c, KindOf(r), about, Failed(e))
                   && (r.ReverseReq? ==> (about.Some? <==> Given(s, c)));
      FailedRowSays(s.ledger, r, about, row, e, Given(s, c));
    }
  }

  // ---------- Completeness ----------

  predicate Auditing(pc: Pc) {
    pc.AuditFailure? || pc.AuditSuccess?
  }

  /** No audit write of call c fails along the run. */
  ghost predicate AuditsSucceed(pool: nat, evs: seq<Event>, c: CallId) {
    forall i: nat :: AuditsAt(pool, evs, i, c) ==> evs[i].ok
  }

  ghost predicate AuditsAt(pool: nat, evs: seq<Event>, i: nat, c: CallId) {
    && i < |evs| && evs[i].Run? && evs[i].call == c
    && Exec(Init(pool), evs[..i]).Some?
    && var u := Exec(Init(pool), evs[..i]).value; c in u.calls && Auditing(u.calls[c].pc)
  }

  predicate HasRow(s: State, c: CallId) {
    exists i :: 0 <= i < |s.audit| && s.audit[i].writer == c
  }

  lemma AuditsPrefix(pool: nat, evs: seq<Event>, n: nat, c: CallId)
    requires n <= |evs| && AuditsSucceed(pool, evs, c)
    ensures AuditsSucceed(pool, evs[..n], c)
  {
    forall i: nat | AuditsAt(pool, evs[..n], i, c) ensures evs[..n][i].ok {
      assert evs[..n][..i] == evs[..i];
      assert AuditsAt(pool, evs, i, c);
    }
  }

  /** A call returns after its audit write, or it replays, or it opens an account. */
  lemma ReturnStep(s: State, ev: Event)
    requires Inv(s) && Serialized(s) && ev.Run? && Enabled(s, ev) && Next(s, ev).calls[ev.call].pc.Returned?
    requires !s.calls[ev.call].req.CreateReq?
    requires Next(s, ev).calls[ev.call].pc.outcome.Err? || Logged(Next(s, ev).log, ev.call)
    ensures Auditing(s.calls[ev.call].pc) && (ev.ok ==> HasRow(Next(s, ev), ev.call))
  {
    var c, call := ev.call, s.calls[ev.call];
    NotCreating(s, c);
    HowItReturns(s.ledger, c, call, ev.ok, ev.newId);
    if Auditing(call.pc) {
      if ev.ok {
        AuditWrites(s.ledger, c, call, ev.newId);
        assert Next(s, ev).audit[|s.audit|].writer == c;
      }
    } else {
      NotLoggedYet(s, c);
    }
  }

  lemma NotCreating(s: State, c: CallId)
    requires Inv(s) && c in s.calls && !s.calls[c].req.CreateReq?
    ensures !s.calls[c].pc.CreateRow? && (s.calls[c].pc.AuditSuccess? ==> s.calls[c].pc.tx.header.Some?)
  {
    assert CallOk(s, c);
  }

  lemma HowItReturns(l: Ledger, c: CallId, call: Call, ok: bool, newId: TxId)
    requires !call.pc.Returned? && !call.pc.CreateRow? && Decide(l, c, call, ok, newId).pc.Returned?
    ensures var e := Decide(l, c, call, ok, newId);
            e.write == Nothing && (Auditing(call.pc) || (e.pc.outcome.Ok? && Decided(call.pc).None?))
  {
  }

  lemma AuditWrites(l: Ledger, c: CallId, call: Call, newId: TxId)
    requires Auditing(call.pc) && !call.req.CreateReq? && (call.pc.AuditSuccess? ==> call.pc.tx.header.Some?)
    ensures var row := Decide(l, c, call, true, newId).audit; row.Some? && row.value.writer == c
  {
  }

  lemma NotLoggedYet(s: State, c: CallId)
    requires Serialized(s) && c in s.calls && Decided(s.calls[c].pc).None?
    ensures !Logged(s.log, c)
  {
    forall i | 0 <= i < |s.log| ensures s.log[i].call != c {
      assert EntryOk(s, i);
    }
  }

  lemma OtherKeepsRow(s: State, ev: Event, c: CallId)
    requires Enabled(s, ev) && ev.call != c
    ensures HasRow(s, c) ==> HasRow(Next(s, ev), c)
    ensures Logged(Next(s, ev).log, c) ==> Logged(s.log, c)
  {
    if HasRow(s, c) {
      var i :| 0 <= i < |s.audit| && s.audit[i].writer == c;
      assert Next(s, ev).audit[i] == s.audit[i];
    }
    if Logged(Next(s, ev).log, c) {
      var i :| 0 <= i < |Next(s, ev).log| && Next(s, ev).log[i].call == c;
      assert s.log[i].call == c;
    }
  }

  lemma {:induction false} RowWritten(pool: nat, evs: seq<Event>, s: State, c: CallId)
    requires Reaches(Init(pool), evs, s) && c in s.calls && s.calls[c].pc.Returned? && !s.calls[c].req.CreateReq?
    requires s.calls[c].pc.outcome.Err? || Logged(s.log, c)
    requires AuditsSucceed(pool, evs, c)
    ensures HasRow(s, c)
  {
    var n := |evs| - 1;
    var u, ev := Exec(Init(pool), evs[..n]).value, evs[n];
    AuditsPrefix(pool, evs, n, c);
    if ev.call != c {
      OtherKeepsRow(u, ev, c);
      RowWritten(pool, evs[..n], u, c);
    } else {
      InvRun(pool, evs[..n], u);
      SerializedRun(pool, evs[..n], u);
      ReturnStep(u, ev);
      assert AuditsAt(pool, evs, n, c);
    }
  }

  /** Completeness: a service call that committed or returned an error, and whose audit write
      did not fail, has exactly one row. */
  lemma EveryVerdictIsAudited(pool: nat, evs: seq<Event>, s: State, c: CallId) returns (i: nat)
    requires Reaches(Init(pool), evs, s) && c in s.calls && s.calls[c].pc.Returned? && !s.calls[c].req.CreateReq?
    requires s.calls[c].pc.outcome.Err? || Logged(s.log, c)
    requires AuditsSucceed(pool, evs, c)
    ensures i < |s.audit| && s.audit[i].writer == c
    ensures forall j :: 0 <= j < |s.audit| && j != i ==> s.audit[j].writer != c
  {
    RowWritten(pool, evs, s, c);
    i :| i < |s.audit| && s.audit[i].writer == c;
    RowsMatchReturns(pool, evs, s, i);
  }
}
