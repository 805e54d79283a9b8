/** The listing pages of a run: the table behind them only grows, so a walk over the pages,
    read at any moments of any run, misses no committed transaction. */
module Listings {
  import opened Base
  import opened Protocol
  import opened LedgerInvariant
  import opened Steps
  import Guarantees
  import P = Paging

  /** created_at of each transaction; nothing is known about it but that it never changes. */
  type Clock = TxId -> int

  function RowOf(h: Header, at: Clock): P.Row {
    P.Row(at(h.id), h.id, h.kind)
  }

  /** A row put in its place. */
  function Inserted(rows: seq<P.Row>, r: P.Row): (s: seq<P.Row>)
    ensures forall x :: x in s <==> x in rows || x == r
  {
    if rows == [] then [r]
    else if P.Newer(r, rows[0]) then [r] + rows
    else [rows[0]] + Inserted(rows[1..], r)
  }

  /** SELECT ... FROM transactions ORDER BY created_at DESC, id DESC */
  function Listed(hs: seq<Header>, at: Clock): seq<P.Row> {
    if hs == [] then [] else Inserted(Listed(hs[..|hs| - 1], at), RowOf(hs[|hs| - 1], at))
  }

  lemma {:induction false} InsertedListing(rows: seq<P.Row>, r: P.Row)
    requires P.Listing(rows) && forall x :: x in rows ==> x.id != r.id
    ensures P.Listing(Inserted(rows, r))
  {
    if rows != [] && !P.Newer(r, rows[0]) {
      InsertedListing(rows[1..], r);
      assert P.Newer(rows[0], r);
      forall x | x in Inserted(rows[1..], r) ensures P.Newer(rows[0], x) {
        if x != r {
          var i :| 0 <= i < |rows[1..]| && rows[1..][i] == x;
          assert rows[i + 1] == x;
        }
      }
    }
  }

  lemma {:induction false} ListedRows(hs: seq<Header>, at: Clock)
    ensures forall h :: h in hs ==> RowOf(h, at) in Listed(hs, at)
    ensures forall r :: r in Listed(hs, at) ==> exists h :: h in hs && r == RowOf(h, at)
  {
    if hs != [] {
      var n := |hs| - 1;
      ListedRows(hs[..n], at);
      assert hs == hs[..n] + [hs[n]];
      forall r | r in Listed(hs, at) ensures exists h :: h in hs && r == RowOf(h, at) {
        if r == RowOf(hs[n], at) {
          assert hs[n] in hs;
        } else {
          var h :| h in hs[..n] && r == RowOf(h, at);
          assert h in hs;
        }
      }
    }
  }

  lemma {:induction false} ListedIsListing(hs: seq<Header>, at: Clock)
    requires Unique(hs)
    ensures P.Listing(Listed(hs, at))
  {
    if hs != [] {
      var n := |hs| - 1;
      ListedIsListing(hs[..n], at);
      ListedRows(hs[..n], at);
      forall x | x in Listed(hs[..n], at) ensures x.id != hs[n].id {
        var h :| h in hs[..n] && x == RowOf(h, at);
        var i :| 0 <= i < n && hs[..n][i] == h;
        assert hs[i].id != hs[n].id;
      }
      InsertedListing(Listed(hs[..n], at), RowOf(hs[n], at));
    }
  }

  /** Row r is listed before row q. */
  predicate Before(rows: seq<P.Row>, r: P.Row, q: P.Row) {
    exists i, j :: 0 <= i < j < |rows| && rows[i] == r && rows[j] == q
  }

  /** A transaction with a later created_at is listed first; of two with the same, the one
      with the higher id. */
  lemma LaterFirst(hs: seq<Header>, at: Clock, g: Header, h: Header)
    requires Unique(hs) && g in hs && h in hs
    requires at(g.id) > at(h.id) || (at(g.id) == at(h.id) && g.id > h.id)
    ensures Before(Listed(hs, at), RowOf(g, at), RowOf(h, at))
  {
    var rows, r, q := Listed(hs, at), RowOf(g, at), RowOf(h, at);
    ListedRows(hs, at);
    ListedIsListing(hs, at);
    var i :| 0 <= i < |rows| && rows[i] == r;
    var j :| 0 <= j < |rows| && rows[j] == q;
    assert !P.Newer(rows[j], rows[i]) && i != j;
    assert i < j;
  }

  // ---------- Over a run ----------

  /** The run is long enough for every read, and the moments come one after the other. */
  predicate MomentsOf(evs: seq<Event>, moments: seq<nat>) {
    && (forall k :: 0 <= k < |moments| ==> moments[k] <= |evs|)
    && (forall k :: 0 < k < |moments| ==> moments[k - 1] <= moments[k])
  }

  /** The transactions committed by the first m events. */
  function HeadersAt(pool: nat, evs: seq<Event>, m: nat): seq<Header> {
    if m > |evs| then []
    else
      match Exec(Init(pool), evs[..m])
      case Some(u) => u.ledger.headers
      case None => []
  }

  function Snapshots(pool: nat, evs: seq<Event>, moments: seq<nat>, at: Clock): (r: seq<seq<P.Row>>)
    ensures |r| == |moments| && forall k :: 0 <= k < |moments| ==> r[k] == Listed(HeadersAt(pool, evs, moments[k]), at)
  {
    if moments == [] then []
    else
      var n := |moments| - 1;
      Snapshots(pool, evs, moments[..n], at) + [Listed(HeadersAt(pool, evs, moments[n]), at)]
  }

  lemma HeadersGrow(pool: nat, evs: seq<Event>, s: State, k: nat, m: nat)
    requires Reaches(Init(pool), evs, s) && k <= m <= |evs|
    ensures HeadersAt(pool, evs, k) <= HeadersAt(pool, evs, m) && Unique(HeadersAt(pool, evs, k))
  {
    var u := PrefixReaches(Init(pool), evs, s, k);
    var v := PrefixReaches(Init(pool), evs, s, m);
    assert evs[..m][..k] == evs[..k];
    LaterExtends(pool, evs[..m], k, u, v);
  }

  lemma LaterExtends(pool: nat, evs: seq<Event>, k: nat, u: State, v: State)
    requires k <= |evs| && Reaches(Init(pool), evs[..k], u) && Reaches(Init(pool), evs, v)
    ensures u.ledger.headers <= v.ledger.headers && Unique(u.ledger.headers)
  {
    InvRun(pool, evs[..k], u);
    assert evs == evs[..k] + evs[k..];
    ExecConcat(Init(pool), evs[..k], u, evs[k..]);
    Guarantees.LedgerGrows(u, evs[k..], v);
  }

  lemma ListedGrows(a: seq<Header>, b: seq<Header>, at: Clock)
    requires a <= b
    ensures forall r :: r in Listed(a, at) ==> r in Listed(b, at)
  {
    ListedRows(a, at);
    ListedRows(b, at);
    forall r | r in Listed(a, at) ensures r in Listed(b, at) {
      var h :| h in a && r == RowOf(h, at);
      assert h in b;
    }
  }

  /** The listings read at any moments of any run, whatever the timestamps, only grow. */
  lemma ListingsGrow(pool: nat, evs: seq<Event>, s: State, moments: seq<nat>, at: Clock)
    requires Reaches(Init(pool), evs, s) && MomentsOf(evs, moments)
    ensures P.Grows(Snapshots(pool, evs, moments, at))
  {
    var snaps := Snapshots(pool, evs, moments, at);
    forall k | 0 <= k < |snaps| ensures P.Listing(snaps[k]) {
      HeadersGrow(pool, evs, s, moments[k], moments[k]);
      ListedIsListing(HeadersAt(pool, evs, moments[k]), at);
    }
    forall k | 0 <= k < |snaps| - 1 ensures forall r :: r in snaps[k] ==> r in snaps[k + 1] {
      HeadersGrow(pool, evs, s, moments[k], moments[k + 1]);
      ListedGrows(HeadersAt(pool, evs, moments[k]), HeadersAt(pool, evs, moments[k + 1]), at);
    }
  }

  /** A walk over the pages of a run that ends with a short page has shown every transaction of
      the asked kind that was committed when its first page was read, whatever commits between
      its pages and whatever the timestamps, and nothing but committed transactions. */
  lemma CommittedAreShown(pool: nat, evs: seq<Event>, s: State, moments: seq<nat>, at: Clock, kind: Option<Kind>,
                          limit: nat, n: nat)
    requires Reaches(Init(pool), evs, s) && MomentsOf(evs, moments) && limit >= 1 && 0 < n <= |moments|
    requires |P.PageAt(Snapshots(pool, evs, moments, at), kind, limit, n - 1)| < limit
    ensures var shown := P.Shown(Snapshots(pool, evs, moments, at), kind, limit, n);
            && (forall h :: h in HeadersAt(pool, evs, moments[0]) && (kind.None? || h.kind == kind.value) ==>
                  RowOf(h, at) in shown)
            && (forall r :: r in shown ==> exists h :: h in s.ledger.headers && r == RowOf(h, at))
  {
    var snaps := Snapshots(pool, evs, moments, at);
    ListingsGrow(pool, evs, s, moments, at);
    forall h | h in HeadersAt(pool, evs, moments[0]) && (kind.None? || h.kind == kind.value)
      ensures RowOf(h, at) in P.Shown(snaps, kind, limit, n)
    {
      ListedRows(HeadersAt(pool, evs, moments[0]), at);
      P.NothingMissed(snaps, kind, limit, n, RowOf(h, at));
    }
    forall r | r in P.Shown(snaps, kind, limit, n) ensures exists h :: h in s.ledger.headers && r == RowOf(h, at) {
      var k := ShownFrom(snaps, kind, limit, n, r);
      CommittedRow(pool, evs, s, moments[k], at, r);
    }
  }

  lemma {:induction false} PartOf<T>(whole: nat -> seq<T>, part: nat -> seq<T>, n: nat, x: T) returns (k: nat)
    requires whole(0) == [] && (forall m: nat :: m < n ==> whole(m + 1) == whole(m) + part(m)) && x in whole(n)
    ensures k < n && x in part(k)
  {
    assert n > 0 ==> whole(n - 1 + 1) == whole(n - 1) + part(n - 1);
    if x in whole(n - 1) { k := PartOf(whole, part, n - 1, x); } else { k := n - 1; }
  }

  lemma ShownFrom(snaps: seq<seq<P.Row>>, kind: Option<Kind>, limit: nat, n: nat, r: P.Row) returns (k: nat)
    requires n <= |snaps| && r in P.Shown(snaps, kind, limit, n)
    ensures k < n && r in snaps[k]
  {
    var whole := (m: nat) => if m <= |snaps| then P.Shown(snaps, kind, limit, m) else [];
    var part := (m: nat) => if m < |snaps| then P.PageAt(snaps, kind, limit, m) else [];
    forall m: nat | m < n ensures whole(m + 1) == whole(m) + part(m) { P.ShownNext(snaps, kind, limit, m); }
    k := PartOf(whole, part, n, r);
    PageRow(snaps[k], kind, limit, P.Offset(limit, k), r);
  }

  lemma PageRow(rows: seq<P.Row>, kind: Option<Kind>, limit: nat, offset: nat, r: P.Row)
    requires r in P.Page(rows, kind, limit, offset)
    ensures r in rows
  {
    assert r in P.Filtered(rows, kind);
  }

  lemma CommittedRow(pool: nat, evs: seq<Event>, s: State, m: nat, at: Clock, r: P.Row)
    requires Reaches(Init(pool), evs, s) && m <= |evs| && r in Listed(HeadersAt(pool, evs, m), at)
    ensures exists h :: h in s.ledger.headers && r == RowOf(h, at)
  {
    HeadersGrow(pool, evs, s, m, |evs|);
    assert evs[..|evs|] == evs;
    ListedRows(HeadersAt(pool, evs, m), at);
    var h :| h in HeadersAt(pool, evs, m) && r == RowOf(h, at);
    assert h in s.ledger.headers;
  }
}
