/** Two concrete histories of calls that run one after the other: a key reused for another
    request, and a transfer reversed twice. */
module SerialWitness {
  import opened Base
  import opened Serial
  import opened LedgerInvariant
  import opened Protocol
  import opened Invariant
  import opened Steps
  import opened Guarantees
  import opened Progress
  import opened Alone

  // ---------- The ledgers along the way ----------

  /** The three seeded users' balances, and the keys in use. */
  predicate Books(l: Ledger, x: int, y: int, z: int, ks: set<string>) {
    && 2 in l.accounts && 3 in l.accounts && 4 in l.accounts
    && l.accounts[2] == Account(x, false) && l.accounts[3] == Account(y, false) && l.accounts[4] == Account(z, false)
    && forall h :: h in l.headers ==> h.key in ks
  }

  function SeedKeys(): set<string> {
    {"seed-deposit-alice-001", "seed-deposit-bob-001", "seed-deposit-charlie-001"}
  }

  lemma SeedBooks()
    ensures Books(Seed(), SEED_AMOUNT, SEED_AMOUNT, SEED_AMOUNT, SeedKeys())
    ensures forall h :: h in Seed().headers ==> h.reverses == None
  {
  }

  lemma Unused(l: Ledger, x: int, y: int, z: int, ks: set<string>, k: string)
    requires Books(l, x, y, z, ks) && k !in ks
    ensures FindKey(l.headers, k).None?
  {
  }

  /** Strings of one character are not among the seed's keys, and differ from each other. */
  lemma ShortKeys(c: char, d: char)
    requires c != d
    ensures [c] !in SeedKeys() && [c] != [d]
  {
    assert [c][0] != [d][0];
  }

  /** A movement between users with funds and room posts. */
  lemma Pays(l: Ledger, m: Move, id: TxId)
    requires m.debit in l.accounts && m.credit in l.accounts && m.debit != m.credit && m.amount > 0
    requires m.amount <= l.accounts[m.debit].balance < LIMIT && 0 <= l.accounts[m.credit].balance < LIMIT - m.amount
    requires m.kind != Deposit && (m.reverses.Some? ==> !Reversed(l.headers, m.reverses.value))
    ensures Post(l, m, id) == (Posted(l, m, id), Ok(HeaderOf(m, id), LegsOf(m, id)))
  {
  }

  lemma TransferPays(l: Ledger, src: AccountId, dst: AccountId, amount: int, k: string, id: TxId)
    requires src != dst && src != EXTERNAL && dst != EXTERNAL && amount > 0 && FindKey(l.headers, k).None?
    requires src in l.accounts && dst in l.accounts
    requires amount <= l.accounts[src].balance < LIMIT && 0 <= l.accounts[dst].balance < LIMIT - amount
    ensures var m := Move(Transfer, src, dst, amount, k, None);
            Atomic(l, TransferReq(src, dst, amount, k), id) == (Posted(l, m, id), Ok(HeaderOf(m, id), LegsOf(m, id)))
  {
    Pays(l, Move(Transfer, src, dst, amount, k, None), id);
  }

  /** Running a reversal of a transfer that is found by its id. */
  lemma ReversalPosts(l: Ledger, h: Header, src: AccountId, dst: AccountId, amount: int, k: string, id: TxId)
    requires FindId(l.headers, h.id) == Some(h) && h.kind == Transfer && FindKey(l.headers, k).None?
    requires EntriesOf(l.entries, h.id) == [Entry(h.id, src, Debit, amount), Entry(h.id, dst, Credit, amount)]
    ensures Atomic(l, ReverseReq(h.id, k), id) == Post(l, Move(Reversal, dst, src, amount, k, Some(h.id)), id)
  {
    TwoLegs(Entry(h.id, src, Debit, amount), Entry(h.id, dst, Credit, amount));
  }

  // ---------- A key reused for another request ----------

  const FIRST: Request := TransferReq(2, 3, 60_000_000, "k")

  const OTHER: Request := TransferReq(2, 4, 7, "k")

  lemma FirstPays(id: TxId)
    ensures Atomic(Seed(), FIRST, id).1 ==
            Ok(Header(id, Transfer, "k", None), LegsOf(Move(Transfer, 2, 3, 60_000_000, "k", None), id))
    ensures FindKey(Atomic(Seed(), FIRST, id).0.headers, "k").Some?
  {
    SeedBooks();
    ShortKeys('k', 'j');
    Unused(Seed(), SEED_AMOUNT, SEED_AMOUNT, SEED_AMOUNT, SeedKeys(), "k");
    TransferPays(Seed(), 2, 3, 60_000_000, "k", id);
  }

  lemma OtherReplays(l: Ledger, id: TxId)
    requires FindKey(l.headers, "k").Some?
    ensures Atomic(l, OTHER, id).1.Ok?
  {
  }

  /** A run in which a transfer of 0.0007 to account 4, alone and after it, returns as its
      success the transfer of 6000.0000 to account 3. */
  lemma ForeignReplay() returns (evs: seq<Event>, cuts: seq<nat>, s: State, h: Header, legs: seq<Entry>)
    ensures Reaches(Init(1), evs, s) && InTurn(1, [FIRST, OTHER], evs, cuts) && 0 in s.calls && 1 in s.calls
    ensures s.calls[0] == Call(TransferReq(2, 3, 60_000_000, "k"), Returned(Ok(h, legs)))
    ensures s.calls[1] == Call(TransferReq(2, 4, 7, "k"), Returned(Ok(h, legs)))
    ensures legs == [Entry(h.id, 2, Debit, 60_000_000), Entry(h.id, 3, Credit, 60_000_000)]
  {
    var ids;
    evs, cuts, s, ids := EverySerialHistory(1, [FIRST, OTHER]);
    FirstPays(ids[0]);
    assert Played(s, [FIRST, OTHER], ids, 0) && Played(s, [FIRST, OTHER], ids, 1);
    assert LedgerAfter([FIRST, OTHER], ids, 1) == Atomic(LedgerAfter([FIRST, OTHER], ids, 0), FIRST, ids[0]).0;
    OtherReplays(LedgerAfter([FIRST, OTHER], ids, 1), ids[1]);
    ExactlyOncePerKey(1, evs, s, [], s, 0, 1);
    h, legs := s.calls[0].pc.outcome.header, s.calls[0].pc.outcome.legs;
  }

  // ---------- A transfer reversed twice ----------

  function Shift(m: Move, a: AccountId): int {
    (if a == m.credit then m.amount else 0) - if a == m.debit then m.amount else 0
  }

  lemma PostedBooks(l: Ledger, x: int, y: int, z: int, ks: set<string>, m: Move, id: TxId)
    requires Books(l, x, y, z, ks) && m.debit in {2, 3, 4} && m.credit in {2, 3, 4} && m.debit != m.credit
    ensures Books(Posted(l, m, id), x + Shift(m, 2), y + Shift(m, 3), z + Shift(m, 4), ks + {m.key})
  {
  }

  /** What is known after some calls: everything is quiet, call 0's transfer of 6000.0000 from
      account 2 to account 3 is h, the next call will be number n. */
  ghost predicate Chapter(evs: seq<Event>, s: State, n: CallId, h: Header, x: int, y: int, z: int, ks: set<string>) {
    && Reaches(Init(1), evs, s) && AllOk(evs) && Quiet(s) && (forall c: nat :: c in s.calls <==> c < n) && n >= 1
    && s.calls[0].pc == Returned(Ok(h, [Entry(h.id, 2, Debit, 60_000_000), Entry(h.id, 3, Credit, 60_000_000)]))
    && h.kind == Transfer && Books(s.ledger, x, y, z, ks)
  }

  lemma OriginalRead(evs: seq<Event>, s: State, n: CallId, h: Header, x: int, y: int, z: int, ks: set<string>)
    requires Chapter(evs, s, n, h, x, y, z, ks)
    ensures FindId(s.ledger.headers, h.id) == Some(h)
    ensures EntriesOf(s.ledger.entries, h.id) == [Entry(h.id, 2, Debit, 60_000_000), Entry(h.id, 3, Credit, 60_000_000)]
  {
    InvRun(1, evs, s);
    assert CallOk(s, 0);
    RecordedReads(s.ledger, h, [Entry(h.id, 2, Debit, 60_000_000), Entry(h.id, 3, Credit, 60_000_000)]);
  }

  lemma OkAppended(evs: seq<Event>, ev: Event, more: seq<Event>)
    requires AllOk(evs) && ev.Arrive? && Clean(more)
    ensures AllOk(evs + [ev] + more)
  {
  }

  /** One more call, alone. */
  lemma NextChapter(evs: seq<Event>, s: State, n: CallId, h: Header, x: int, y: int, z: int, ks: set<string>,
                    r: Request, m: Move) returns (all: seq<Event>, t: State, id: TxId)
    requires Chapter(evs, s, n, h, x, y, z, ks) && m.debit in {2, 3, 4} && m.credit in {2, 3, 4}
    requires m.debit != m.credit
    requires forall i :: Atomic(s.ledger, r, i) == (Posted(s.ledger, m, i), Ok(HeaderOf(m, i), LegsOf(m, i)))
    ensures Chapter(all, t, n + 1, h, x + Shift(m, 2), y + Shift(m, 3), z + Shift(m, 4), ks + {m.key})
    ensures t.ledger == Posted(s.ledger, m, id)
    ensures t.calls == s.calls[n := Call(r, Returned(Ok(HeaderOf(m, id), LegsOf(m, id))))]
  {
    var more;
    more, t, id := AloneIsAtomic(1, evs, s, n, r);
    all := evs + [Arrive(n, r)] + more;
    assert Atomic(s.ledger, r, id) == (Posted(s.ledger, m, id), Ok(HeaderOf(m, id), LegsOf(m, id)));
    OkAppended(evs, Arrive(n, r), more);
    ChapterEnds(evs, s, n, h, x, y, z, ks, r, m, id, all, t);
  }

  lemma ChapterEnds(evs: seq<Event>, s: State, n: CallId, h: Header, x: int, y: int, z: int, ks: set<string>,
                    r: Request, m: Move, id: TxId, all: seq<Event>, t: State)
    requires Chapter(evs, s, n, h, x, y, z, ks) && m.debit in {2, 3, 4} && m.credit in {2, 3, 4} && m.debit != m.credit
    requires Reaches(Init(1), all, t) && AllOk(all) && Quiet(t) && t.ledger == Posted(s.ledger, m, id)
    requires t.calls == s.calls[n := Call(r, Returned(Ok(HeaderOf(m, id), LegsOf(m, id))))]
    ensures Chapter(all, t, n + 1, h, x + Shift(m, 2), y + Shift(m, 3), z + Shift(m, 4), ks + {m.key})
  {
    PostedBooks(s.ledger, x, y, z, ks, m, id);
  }

  /** Call 0: the transfer. */
  lemma Transferred() returns (evs: seq<Event>, s: State, h: Header)
    ensures Chapter(evs, s, 1, h, 40_000_000, 160_000_000, 100_000_000, SeedKeys() + {"a"})
    ensures !Reversed(s.ledger.headers, h.id)
  {
    var r, m, id := TransferReq(2, 3, 60_000_000, "a"), Move(Transfer, 2, 3, 60_000_000, "a", None), 0;
    SeedBooks();
    ShortKeys('a', 'b');
    Unused(Seed(), SEED_AMOUNT, SEED_AMOUNT, SEED_AMOUNT, SeedKeys(), "a");
    NothingPlayed(1);
    var more;
    more, s, id := AloneIsAtomic(1, [], Init(1), 0, r);
    evs := [] + [Arrive(0, r)] + more;
    OkAppended([], Arrive(0, r), more);
    TransferPays(Seed(), 2, 3, 60_000_000, "a", id);
    PostedBooks(Seed(), SEED_AMOUNT, SEED_AMOUNT, SEED_AMOUNT, SeedKeys(), m, id);
    h := HeaderOf(m, id);
    assert s.calls[0].pc == Returned(Ok(h, LegsOf(m, id)));
    NoneReversed(Seed(), m, id);
  }

  lemma NoneReversed(l: Ledger, m: Move, id: TxId)
    requires m.debit in l.accounts && m.credit in l.accounts && m.reverses == None
    requires forall h :: h in l.headers ==> h.reverses == None
    ensures !Reversed(Posted(l, m, id).headers, id)
  {
  }

  /** Call 1: its reversal. */
  lemma ReversedOnce() returns (evs: seq<Event>, s: State, h: Header)
    ensures Chapter(evs, s, 2, h, 100_000_000, 100_000_000, 100_000_000, SeedKeys() + {"a"} + {"b"})
    ensures s.calls[1].req == ReverseReq(h.id, "b") && s.calls[1].pc.Returned? && s.calls[1].pc.outcome.Ok?
    ensures Reversed(s.ledger.headers, h.id)
  {
    var id;
    evs, s, h := Transferred();
    var m := Move(Reversal, 3, 2, 60_000_000, "b", Some(h.id));
    OriginalRead(evs, s, 1, h, 40_000_000, 160_000_000, 100_000_000, SeedKeys() + {"a"});
    ShortKeys('b', 'a');
    Unused(s.ledger, 40_000_000, 160_000_000, 100_000_000, SeedKeys() + {"a"}, "b");
    forall i
      ensures Atomic(s.ledger, ReverseReq(h.id, "b"), i) == (Posted(s.ledger, m, i), Ok(HeaderOf(m, i), LegsOf(m, i)))
    {
      ReversalPosts(s.ledger, h, 2, 3, 60_000_000, "b", i);
      Pays(s.ledger, m, i);
    }
    evs, s, id := NextChapter(evs, s, 1, h, 40_000_000, 160_000_000, 100_000_000, SeedKeys() + {"a"},
                              ReverseReq(h.id, "b"), m);
    assert s.ledger.headers[|s.ledger.headers| - 1].reverses == Some(h.id);
  }

  /** Call 2: the payee spends half of what is left. */
  lemma Spent() returns (evs: seq<Event>, s: State, h: Header)
    ensures Chapter(evs, s, 3, h, 100_000_000, 50_000_000, 150_000_000, SeedKeys() + {"a"} + {"b"} + {"c"})
    ensures s.calls[1].req == ReverseReq(h.id, "b") && s.calls[1].pc.Returned? && s.calls[1].pc.outcome.Ok?
    ensures Reversed(s.ledger.headers, h.id)
  {
    var id;
    evs, s, h := ReversedOnce();
    var u := s.ledger;
    var m, ks := Move(Transfer, 3, 4, 50_000_000, "c", None), SeedKeys() + {"a"} + {"b"};
    ShortKeys('c', 'a');
    ShortKeys('c', 'b');
    Unused(s.ledger, 100_000_000, 100_000_000, 100_000_000, ks, "c");
    forall i
      ensures Atomic(s.ledger, TransferReq(3, 4, 50_000_000, "c"), i) ==
              (Posted(s.ledger, m, i), Ok(HeaderOf(m, i), LegsOf(m, i)))
    {
      TransferPays(s.ledger, 3, 4, 50_000_000, "c", i);
    }
    evs, s, id := NextChapter(evs, s, 2, h, 100_000_000, 100_000_000, 100_000_000, ks,
                              TransferReq(3, 4, 50_000_000, "c"), m);
    StillReversed(u, m, id, h.id);
  }

  lemma StillReversed(l: Ledger, m: Move, id: TxId, original: TxId)
    requires m.debit in l.accounts && m.credit in l.accounts && Reversed(l.headers, original)
    ensures Reversed(Posted(l, m, id).headers, original)
  {
    var h :| h in l.headers && h.reverses == Some(original);
    assert h in Posted(l, m, id).headers;
  }

  lemma TooShort(l: Ledger, x: int, y: int, z: int, ks: set<string>, m: Move, id: TxId)
    requires Books(l, x, y, z, ks) && m.kind == Reversal && m.debit == 3 && m.credit == 2 && y < m.amount
    ensures Post(l, m, id) == (l, Err(InsufficientFunds))
  {
  }

  /** Call 3 arrives when the transfer is reversed already, alone and under a key of its own,
      and is told that the funds do not suffice, not that the transfer is already reversed.
      No store call of anybody fails. */
  lemma SecondReversalShort() returns (evs: seq<Event>, u: State, more: seq<Event>, s: State, original: TxId)
    ensures Reaches(Init(1), evs, u) && AllOk(evs) && Quiet(u)
    ensures Reversed(u.ledger.headers, original) && FindKey(u.ledger.headers, "d").None? && 3 !in u.calls
    ensures Reaches(Init(1), evs + [Arrive(3, ReverseReq(original, "d"))] + more, s) && Clean(more)
    ensures 3 in s.calls && s.calls[3].pc == Returned(Err(InsufficientFunds))
    ensures s.ledger == u.ledger
  {
    var h, id;
    evs, u, h := Spent();
    original := h.id;
    var ks := SeedKeys() + {"a"} + {"b"} + {"c"};
    OriginalRead(evs, u, 3, h, 100_000_000, 50_000_000, 150_000_000, ks);
    ShortKeys('d', 'a');
    ShortKeys('d', 'b');
    ShortKeys('d', 'c');
    Unused(u.ledger, 100_000_000, 50_000_000, 150_000_000, ks, "d");
    more, s, id := AloneIsAtomic(1, evs, u, 3, ReverseReq(h.id, "d"));
    ReversalPosts(u.ledger, h, 2, 3, 60_000_000, "d", id);
    TooShort(u.ledger, 100_000_000, 50_000_000, 150_000_000, ks, Move(Reversal, 3, 2, 60_000_000, "d", Some(h.id)), id);
  }
}
