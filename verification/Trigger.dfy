/** The deferred constraint trigger on entries, against arbitrary SQL.  It re-sums the
    transaction of every row inserted or updated, at commit; deleted rows, and the
    transaction an updated row used to belong to, are not looked at. */
module Trigger {
  import opened Base
  import opened Protocol

  type RowId = nat

  type Table = map<RowId, Entry>

  datatype Edit = Insert(row: RowId, entry: Entry) | Update(row: RowId, entry: Entry) | Delete(row: RowId)

  function ApplyEdit(t: Table, e: Edit): Table {
    if e.Delete? then t - {e.row} else t[e.row := e.entry]
  }

  /** The table after a database transaction's statements. */
  function Edited(t: Table, edits: seq<Edit>): Table {
    if edits == [] then t else ApplyEdit(Edited(t, edits[..|edits| - 1]), edits[|edits| - 1])
  }

  /** NEW.transaction_id of every row event queued for commit. */
  function Fired(edits: seq<Edit>): set<TxId> {
    set i | 0 <= i < |edits| && !edits[i].Delete? :: edits[i].entry.txId
  }

  /** The rows of one transaction. */
  function RowsOf(t: Table, id: TxId): Table {
    map r | r in t && t[r].txId == id :: t[r]
  }

  ghost function Sum(t: Table): int {
    if t == map[] then 0
    else
      var r :| r in t;
      Sign(t[r]) + Sum(t - {r})
  }

  ghost predicate Accepts(t: Table, edits: seq<Edit>) {
    forall id :: id in Fired(edits) ==> Sum(RowsOf(Edited(t, edits), id)) == 0
  }

  ghost predicate Balanced(t: Table) {
    forall id :: Sum(RowsOf(t, id)) == 0
  }

  // ---------- Sums over rows ----------

  lemma {:induction false} SumRemove(t: Table, r: RowId)
    requires r in t
    ensures Sum(t) == Sign(t[r]) + Sum(t - {r})
    decreases |t|
  {
    var q :| q in t && Sum(t) == Sign(t[q]) + Sum(t - {q});
    if q != r {
      SumRemove(t - {q}, r);
      SumRemove(t - {r}, q);
      assert t - {q} - {r} == t - {r} - {q};
    }
  }

  lemma RemoveFromUnion(t: Table, u: Table, r: RowId)
    requires t.Keys !! u.Keys && r in t
    ensures (t + u) - {r} == (t - {r}) + u && (t - {r}).Keys !! u.Keys && |t - {r}| < |t|
  {
    var rest := t - {r};
    assert rest.Keys == t.Keys - {r};
    Smaller(rest, t);
    UnionMinus(t, u, r);
  }

  lemma UnionMinus(t: Table, u: Table, r: RowId)
    requires r !in u
    ensures (t + u) - {r} == (t - {r}) + u
  {
    var a, b := (t + u) - {r}, (t - {r}) + u;
    assert a.Keys == b.Keys;
    assert forall x :: x in a ==> a[x] == b[x];
  }

  /** Sums add up over disjoint sets of rows. */
  lemma {:induction false} SumUnion(t: Table, u: Table)
    requires t.Keys !! u.Keys
    ensures Sum(t + u) == Sum(t) + Sum(u)
    decreases |t|
  {
    if t == map[] {
      assert t + u == u;
    } else {
      var r :| r in t;
      RemoveFromUnion(t, u, r);
      SumUnion(t - {r}, u);
      SumRemove(t, r);
      SumRemove(t + u, r);
    }
  }

  /** If every transaction sums to zero, so does the whole table. */
  lemma {:induction false} BalancedSum(t: Table)
    requires Balanced(t)
    ensures Sum(t) == 0
    decreases |t|
  {
    if t != map[] {
      var r :| r in t;
      var id := t[r].txId;
      var rest := t - RowsOf(t, id).Keys;
      SumUnion(rest, RowsOf(t, id));
      assert t == rest + RowsOf(t, id);
      forall x ensures Sum(RowsOf(rest, x)) == 0 {
        if x == id { assert RowsOf(rest, x) == map[]; } else { assert RowsOf(rest, x) == RowsOf(t, x); }
      }
      assert rest.Keys < t.Keys by { assert r in t && r !in rest; }
      Smaller(rest, t);
      BalancedSum(rest);
    }
  }

  lemma Smaller(a: Table, b: Table)
    requires a.Keys < b.Keys
    ensures |a| < |b|
  {
    assert |a| == |a.Keys| && |b| == |b.Keys|;
    assert b.Keys == a.Keys + (b.Keys - a.Keys);
  }

  // ---------- What the trigger guarantees ----------

  /** The rows a transaction loses: deleted, or moved to another transaction. */
  function Lost(t: Table, u: Table, id: TxId): Table {
    map r | r in RowsOf(t, id) && !(r in u && u[r].txId == id) :: t[r]
  }

  lemma {:induction false} UntouchedRows(t: Table, edits: seq<Edit>, id: TxId)
    requires id !in Fired(edits)
    ensures forall r :: r in RowsOf(Edited(t, edits), id) ==> r in t && t[r] == Edited(t, edits)[r]
  {
    if edits != [] {
      var n := |edits| - 1;
      forall x | x in Fired(edits[..n]) ensures x in Fired(edits) {
        var i :| 0 <= i < n && !edits[..n][i].Delete? && edits[..n][i].entry.txId == x;
        assert edits[i] == edits[..n][i];
      }
      UntouchedRows(t, edits[..n], id);
      assert !edits[n].Delete? ==> edits[n].entry.txId in Fired(edits);
    }
  }

  lemma LostSum(t: Table, edits: seq<Edit>, id: TxId)
    requires id !in Fired(edits)
    ensures var u := Edited(t, edits); Sum(RowsOf(t, id)) == Sum(RowsOf(u, id)) + Sum(Lost(t, u, id))
  {
    var u, rows := Edited(t, edits), RowsOf(t, id);
    UntouchedRows(t, edits, id);
    var lost := Lost(t, u, id);
    SumUnion(RowsOf(u, id), lost);
    assert rows == RowsOf(u, id) + lost;
  }

  /** Exactly what an accepted commit guarantees: starting from balanced transactions, all
      transactions are balanced afterwards if and only if every transaction that no inserted
      or updated row belongs to lost only rows that balance among themselves. */
  lemma AcceptedExactly(t: Table, edits: seq<Edit>)
    requires Balanced(t) && Accepts(t, edits)
    ensures Balanced(Edited(t, edits)) <==>
            forall id :: id !in Fired(edits) ==> Sum(Lost(t, Edited(t, edits), id)) == 0
  {
    var u := Edited(t, edits);
    forall id | id !in Fired(edits) ensures Sum(RowsOf(u, id)) == 0 <==> Sum(Lost(t, u, id)) == 0 {
      LostSum(t, edits, id);
      assert Sum(RowsOf(t, id)) == 0;
    }
  }

  /** Inserting rows under new row ids, and updating rows without moving them to another
      transaction: what the service, and any correction of an amount, does. */
  predicate Additive(t: Table, edits: seq<Edit>) {
    forall i :: 0 <= i < |edits| ==>
      match edits[i]
      case Insert(r, _) => r !in t
      case Update(r, e) => r in t ==> t[r].txId == e.txId
      case Delete(_) => false
  }

  lemma {:induction false} AdditiveKeeps(t: Table, edits: seq<Edit>, r: RowId)
    requires Additive(t, edits) && r in t
    ensures r in Edited(t, edits) && Edited(t, edits)[r].txId == t[r].txId
  {
    if edits != [] { AdditiveKeeps(t, edits[..|edits| - 1], r); }
  }

  /** Over any sequence of accepted additive commits, whoever makes them, every transaction
      stays balanced and the signed sum of all entries stays zero. */
  lemma {:induction false} AdditiveCommitsStayBalanced(t: Table, commits: seq<seq<Edit>>)
    requires Balanced(t)
    requires AllAccepted(t, commits)
    ensures Balanced(Committed(t, commits)) && Sum(Committed(t, commits)) == 0
  {
    if commits == [] {
      BalancedSum(t);
    } else {
      var n := |commits| - 1;
      var u, edits := Committed(t, commits[..n]), commits[n];
      AdditiveCommitsStayBalanced(t, commits[..n]);
      AcceptedExactly(u, edits);
      forall id | id !in Fired(edits) ensures Sum(Lost(u, Edited(u, edits), id)) == 0 {
        forall r | r in RowsOf(u, id) ensures r in Edited(u, edits) && Edited(u, edits)[r].txId == id {
          AdditiveKeeps(u, edits, r);
        }
        assert Lost(u, Edited(u, edits), id) == map[];
      }
      BalancedSum(Edited(u, edits));
    }
  }

  function Committed(t: Table, commits: seq<seq<Edit>>): Table {
    if commits == [] then t else Edited(Committed(t, commits[..|commits| - 1]), commits[|commits| - 1])
  }

  ghost predicate AllAccepted(t: Table, commits: seq<seq<Edit>>) {
    commits != [] ==>
      var u := Committed(t, commits[..|commits| - 1]);
      AllAccepted(t, commits[..|commits| - 1]) && Accepts(u, commits[|commits| - 1])
          && Additive(u, commits[|commits| - 1])
  }

  // ---------- What it does not guarantee ----------

  lemma SumTwo(t: Table, p: RowId, q: RowId)
    requires t.Keys == {p, q} && p != q
    ensures Sum(t) == Sign(t[p]) + Sign(t[q])
  {
    SumRemove(t, p);
    SumRemove(t - {p}, q);
    assert t - {p} - {q} == map[];
  }

  lemma SumOne(t: Table, p: RowId)
    requires t.Keys == {p}
    ensures Sum(t) == Sign(t[p])
  {
    SumRemove(t, p);
    assert t - {p} == map[];
  }

  /** Deleting one leg is accepted and leaves the transaction unbalanced. */
  lemma DeleteSlipsThrough()
    ensures var t: Table := map[1 := Entry(7, 2, Debit, 5), 2 := Entry(7, 3, Credit, 5)];
            Balanced(t) && Accepts(t, [Delete(1)]) && !Balanced(Edited(t, [Delete(1)]))
  {
    var t: Table := map[1 := Entry(7, 2, Debit, 5), 2 := Entry(7, 3, Credit, 5)];
    forall id ensures Sum(RowsOf(t, id)) == 0 {
      if id == 7 { assert RowsOf(t, id) == t; SumTwo(t, 1, 2); } else { assert RowsOf(t, id) == map[]; }
    }
    assert [Delete(1)][..0] == [];
    var u := Edited(t, [Delete(1)]);
    assert u == map[2 := Entry(7, 3, Credit, 5)];
    SumOne(RowsOf(u, 7), 2);
  }

  /** So is moving one leg to another transaction together with a leg that balances it there. */
  lemma MoveSlipsThrough()
    ensures var t: Table := map[1 := Entry(7, 2, Debit, 5), 2 := Entry(7, 3, Credit, 5)];
            var edits := [Update(2, Entry(8, 3, Credit, 5)), Insert(3, Entry(8, 2, Debit, 5))];
            Balanced(t) && Accepts(t, edits) && !Balanced(Edited(t, edits))
  {
    var t: Table := map[1 := Entry(7, 2, Debit, 5), 2 := Entry(7, 3, Credit, 5)];
    var edits := [Update(2, Entry(8, 3, Credit, 5)), Insert(3, Entry(8, 2, Debit, 5))];
    forall id ensures Sum(RowsOf(t, id)) == 0 {
      if id == 7 { assert RowsOf(t, id) == t; SumTwo(t, 1, 2); } else { assert RowsOf(t, id) == map[]; }
    }
    EditedTwo(t, edits[0], edits[1]);
    var u := Edited(t, edits);
    SumTwo(RowsOf(u, 8), 2, 3);
    SumOne(RowsOf(u, 7), 1);
  }

  lemma EditedTwo(t: Table, e: Edit, f: Edit)
    ensures Edited(t, [e, f]) == ApplyEdit(ApplyEdit(t, e), f)
  {
    assert [e, f][..1] == [e] && [e][..0] == [];
    assert Edited(t, [e]) == ApplyEdit(t, e);
  }

  // ---------- The service's own commits ----------

  /** The entries of the ledger as a table, row ids in insertion order. */
  function AsTable(es: seq<Entry>): Table {
    map i | 0 <= i < |es| :: es[i]
  }

  lemma SumOfRowsStep(es: seq<Entry>, e: Entry, id: TxId)
    ensures Sum(RowsOf(AsTable(es + [e]), id)) == Sum(RowsOf(AsTable(es), id)) + if e.txId == id then Sign(e) else 0
  {
    var rows := RowsOf(AsTable(es + [e]), id);
    if e.txId == id {
      SumRemove(rows, |es|);
      assert rows - {|es|} == RowsOf(AsTable(es), id);
    } else {
      assert rows == RowsOf(AsTable(es), id);
    }
  }

  lemma SignedStep(es: seq<Entry>, e: Entry, id: TxId)
    ensures Signed(EntriesOf(es + [e], id)) == Signed(EntriesOf(es, id)) + if e.txId == id then Sign(e) else 0
  {
    EntriesOfAppend(es, e, id);
    SignedAppend(EntriesOf(es, id), e);
    assert EntriesOf(es, id) + [] == EntriesOf(es, id);
  }

  lemma {:induction false} SumOfRows(es: seq<Entry>, id: TxId)
    ensures Sum(RowsOf(AsTable(es), id)) == Signed(EntriesOf(es, id))
  {
    if es == [] {
      assert RowsOf(AsTable(es), id) == map[];
    } else {
      SumOfRows(es[..|es| - 1], id);
      SumOfRowsStep(es[..|es| - 1], es[|es| - 1], id);
      SignedStep(es[..|es| - 1], es[|es| - 1], id);
      assert es == es[..|es| - 1] + [es[|es| - 1]];
    }
  }

  function Inserts(at: nat, batch: seq<Entry>): seq<Edit> {
    seq(|batch|, i requires 0 <= i < |batch| => Insert(at + i, batch[i]))
  }

  lemma {:induction false} InsertsAppend(es: seq<Entry>, batch: seq<Entry>)
    ensures Edited(AsTable(es), Inserts(|es|, batch)) == AsTable(es + batch)
  {
    if batch == [] {
      assert es + batch == es;
    } else {
      var init := batch[..|batch| - 1];
      InsertsAppend(es, init);
      assert Inserts(|es|, batch)[..|batch| - 1] == Inserts(|es|, init);
      assert es + batch == es + init + [batch[|batch| - 1]];
    }
  }

  /** The commit check of the state machine is this trigger, applied to the batch of inserts. */
  lemma TriggerIsThisOne(es: seq<Entry>, batch: seq<Entry>)
    ensures TriggerAccepts(es + batch, batch) <==> Accepts(AsTable(es), Inserts(|es|, batch))
  {
    var edits := Inserts(|es|, batch);
    InsertsAppend(es, batch);
    forall id ensures id in Fired(edits) <==> exists e :: e in batch && e.txId == id {
      if id in Fired(edits) {
        var i :| 0 <= i < |edits| && !edits[i].Delete? && edits[i].entry.txId == id;
        assert batch[i] in batch;
      }
      if e :| e in batch && e.txId == id {
        var i :| 0 <= i < |batch| && batch[i] == e;
        assert edits[i].entry.txId == id;
      }
    }
    forall id ensures Sum(RowsOf(AsTable(es + batch), id)) == Signed(EntriesOf(es + batch, id)) {
      SumOfRows(es + batch, id);
    }
  }
}
