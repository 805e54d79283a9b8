/** Offset paging over a ledger that grows while it is read. */
module Paging {
  import opened Base
  import opened Numerals

  /** A transactions row as the listing orders it.  created_at is the start time of the
      inserting transaction, so a row may be committed after rows that sort before it. */
  datatype Row = Row(createdAt: int, id: TxId, kind: Kind)

  /** r is listed before q: ORDER BY created_at DESC, id DESC. */
  predicate Newer(r: Row, q: Row) {
    r.createdAt > q.createdAt || (r.createdAt == q.createdAt && r.id > q.id)
  }

  /** A listing: every row once, newest first. */
  predicate Listing(rows: seq<Row>) {
    forall i, j :: 0 <= i < j < |rows| ==> Newer(rows[i], rows[j])
  }

  predicate Matches(r: Row, kind: Option<Kind>) {
    kind.None? || r.kind == kind.value
  }

  /** WHERE kind IS NULL OR kind = $1 */
  function Filtered(rows: seq<Row>, kind: Option<Kind>): (r: seq<Row>)
    ensures forall x :: x in r <==> x in rows && Matches(x, kind)
  {
    if rows == [] then []
    else Filtered(rows[..|rows| - 1], kind) + if Matches(rows[|rows| - 1], kind) then [rows[|rows| - 1]] else []
  }

  function Min(a: nat, b: nat): nat { if a < b then a else b }

  /** LIMIT limit OFFSET offset */
  function Page(rows: seq<Row>, kind: Option<Kind>, limit: nat, offset: nat): seq<Row> {
    var all := Filtered(rows, kind);
    all[Min(offset, |all|)..Min(offset + limit, |all|)]
  }

  // ---------- The handler's parameters ----------

  /** The largest 64-bit integer. */
  const MAX_INT: int := 0x7fff_ffff_ffff_ffff

  /** strconv.Atoi: a signed decimal that fits 64 bits. */
  function Atoi(s: string): Option<int> {
    match ParseInt(s)
    case None => None
    case Some(n) => if -MAX_INT - 1 <= n <= MAX_INT then Some(n) else None
  }

  /** parseLimit: whatever the query says, between 1 and the cap. */
  function ParseLimit(raw: string, default: nat, cap: nat): (r: nat)
    requires 1 <= default <= cap
    ensures 1 <= r <= cap
    ensures Atoi(raw).Some? && 1 <= Atoi(raw).value <= cap ==> r == Atoi(raw).value
    ensures Atoi(raw).Some? && Atoi(raw).value > cap ==> r == cap
    ensures Atoi(raw).None? || Atoi(raw).value <= 0 ==> r == default
  {
    if raw == "" then default
    else
      match Atoi(raw)
      case None => default
      case Some(n) => if n <= 0 then default else if n > cap then cap else n
  }

  function KindNamed(s: string): Option<Kind> {
    if s == "TRANSFER" then Some(Transfer)
    else if s == "REVERSAL" then Some(Reversal)
    else if s == "DEPOSIT" then Some(Deposit)
    else if s == "WITHDRAWAL" then Some(Withdrawal)
    else None
  }

  /** listAllTransactions: None is the 400 for an unknown kind. */
  method ListAll(rows: seq<Row>, rawLimit: string, rawOffset: string, rawKind: string) returns (r: Option<seq<Row>>)
    ensures r.None? <==> rawKind != "" && KindNamed(rawKind).None?
    ensures r.Some? ==>
              var offset := if Atoi(rawOffset).Some? && Atoi(rawOffset).value > 0 then Atoi(rawOffset).value else 0;
              var kind := if rawKind == "" then None else KindNamed(rawKind);
              r.value == Page(rows, kind, ParseLimit(rawLimit, 50, 200), offset)
    ensures r.Some? ==> |r.value| <= 200
  {
    var limit := ParseLimit(rawLimit, 50, 200);
    var offset := 0;
    if rawOffset != "" {
      var n := Atoi(rawOffset);
      if n.Some? && n.value > 0 { offset := n.value; }
    }
    var kind := None;
    if rawKind != "" {
      kind := KindNamed(rawKind);
      if kind.None? { return None; }
    }
    r := Some(Page(rows, kind, limit, offset));
  }

  // ---------- What the parameters say ----------

  /** What Atoi reads: a signed number that fits, and nothing else. */
  lemma AtoiReads(s: string)
    ensures Atoi(s) == if IsSigned(s) && -MAX_INT - 1 <= SignedValue(s) <= MAX_INT then Some(SignedValue(s)) else None
  {
    IntReads(s);
  }

  /** A printed number is read back, below 2^63; its negation is read as one. */
  lemma AtoiPrinted(n: nat)
    ensures Atoi(Digits(n)) == if n <= MAX_INT then Some(n as int) else None
    ensures var r := Atoi("-" + Digits(n)); if n <= MAX_INT + 1 then r.Some? && r.value + n == 0 else r.None?
  {
    DigitsSpell(n);
    AtoiSpelled("", Digits(n), Digits(n), n);
    AtoiSpelled("-", Digits(n), "-" + Digits(n), n);
  }

  lemma AtoiSpelled(sign: string, ds: string, s: string, n: nat)
    requires IsSign(sign) && IsNumber(ds) && Positional(ds) == n && s == sign + ds
    ensures var v := WithSign(sign, n); Atoi(s) == if -MAX_INT - 1 <= v <= MAX_INT then Some(v) else None
  {
    SignedParts(sign, ds, s);
    AtoiReads(s);
  }

  /** Character i of the text is neither a digit nor a sign in front. */
  predicate Stray(s: string, i: nat) {
    i < |s| && !IsDigit(s[i]) && !(i == 0 && (s[0] == '+' || s[0] == '-'))
  }

  /** A printed limit is taken as it is up to the cap, and the cap above it; zero, a negative
      number, a number of 2^63 or more and a text that is no number all mean the default. */
  lemma LimitsExactly(n: nat, default: nat, cap: nat)
    requires 1 <= default <= cap <= MAX_INT
    ensures ParseLimit(Digits(n), default, cap) ==
            if n == 0 || n > MAX_INT then default else if n > cap then cap else n
    ensures ParseLimit("-" + Digits(n), default, cap) == default
    ensures ParseLimit("", default, cap) == default
    ensures forall s: string, i: nat :: Stray(s, i) ==> ParseLimit(s, default, cap) == default
  {
    AtoiPrinted(n);
    forall s: string, i: nat | Stray(s, i) ensures ParseLimit(s, default, cap) == default {
      AtoiReads(s);
    }
  }

  /** The text a client sends for a kind; none for all kinds. */
  function KindText(kind: Option<Kind>): string {
    match kind
    case None => ""
    case Some(Transfer) => "TRANSFER"
    case Some(Reversal) => "REVERSAL"
    case Some(Deposit) => "DEPOSIT"
    case Some(Withdrawal) => "WITHDRAWAL"
  }

  /** Each kind has one name, and only that name is read as it. */
  lemma KindsExactly(s: string, k: Kind)
    ensures KindNamed(s) == Some(k) <==> s == KindText(Some(k))
    ensures KindText(Some(k)) != ""
  {
    assert "TRANSFER"[0] == 'T' && "REVERSAL"[0] == 'R' && "DEPOSIT"[0] == 'D' && "WITHDRAWAL"[0] == 'W';
  }

  lemma {:induction false} AllKinds(rows: seq<Row>)
    ensures Filtered(rows, None) == rows
  {
    if rows != [] {
      var init, last := rows[..|rows| - 1], rows[|rows| - 1];
      AllKinds(init);
      NoneDropped(rows, init, last);
      assert init + [last] == rows;
    }
  }

  lemma NoneDropped(rows: seq<Row>, init: seq<Row>, last: Row)
    requires rows != [] && init == rows[..|rows| - 1] && last == rows[|rows| - 1]
    ensures Filtered(rows, None) == Filtered(init, None) + [last]
  {
  }

  /** One page, asked for with the numbers printed: rows offset to offset + limit of the
      matching rows. */
  method Fetch(rows: seq<Row>, kind: Option<Kind>, limit: nat, offset: nat) returns (page: seq<Row>)
    requires 1 <= limit <= 200 && offset <= MAX_INT
    ensures page == Page(rows, kind, limit, offset)
  {
    AtoiPrinted(offset);
    LimitsExactly(limit, 50, 200);
    if kind.Some? { KindsExactly(KindText(kind), kind.value); }
    var r := ListAll(rows, Digits(limit), Digits(offset), KindText(kind));
    page := r.value;
  }

  /** As the web page asks, for any kind: rows offset to offset + limit of the listing. */
  method FetchAny(rows: seq<Row>, limit: nat, offset: nat) returns (page: seq<Row>)
    requires 1 <= limit <= 200 && offset <= MAX_INT
    ensures page == rows[Min(offset, |rows|)..Min(offset + limit, |rows|)]
  {
    AllKinds(rows);
    page := Fetch(rows, None, limit, offset);
  }

  /** Above the cap the server answers with 200 rows all the same: a client that takes fewer
      rows than it asked for as the end stops too early. */
  method FetchTooMany(rows: seq<Row>, limit: nat) returns (page: seq<Row>)
    requires 200 < limit <= MAX_INT && |rows| > 200 && Listing(rows)
    ensures page == rows[..200] && |page| < limit && rows[200] !in page
  {
    AtoiPrinted(0);
    LimitsExactly(limit, 50, 200);
    AllKinds(rows);
    var r := ListAll(rows, Digits(limit), Digits(0), "");
    page := r.value;
    assert forall i :: 0 <= i < 200 ==> Newer(rows[i], rows[200]);
  }

  // ---------- Walking the pages ----------

  /** The table only grows: each snapshot lists at least the rows of the one before. */
  predicate Grows(snaps: seq<seq<Row>>) {
    && (forall k :: 0 <= k < |snaps| ==> Listing(snaps[k]))
    && (forall k :: 0 <= k < |snaps| - 1 ==> forall r :: r in snaps[k] ==> r in snaps[k + 1])
  }

  /** The offset after loading more k times. */
  function Offset(limit: nat, k: nat): nat {
    if k == 0 then 0 else Offset(limit, k - 1) + limit
  }

  lemma {:induction false} OffsetsGrow(limit: nat, j: nat, k: nat)
    requires j <= k
    ensures Offset(limit, j) <= Offset(limit, k)
  {
    if j < k { OffsetsGrow(limit, j, k - 1); }
  }

  /** Page k, read from snapshot k. */
  function PageAt(snaps: seq<seq<Row>>, kind: Option<Kind>, limit: nat, k: nat): seq<Row>
    requires k < |snaps|
  {
    Page(snaps[k], kind, limit, Offset(limit, k))
  }

  /** Everything the first n pages show. */
  function Shown(snaps: seq<seq<Row>>, kind: Option<Kind>, limit: nat, n: nat): seq<Row>
    requires n <= |snaps|
  {
    if n == 0 then [] else Shown(snaps, kind, limit, n - 1) + PageAt(snaps, kind, limit, n - 1)
  }

  predicate Full(snaps: seq<seq<Row>>, kind: Option<Kind>, limit: nat, k: nat) {
    k < |snaps| && |PageAt(snaps, kind, limit, k)| == limit
  }

  /** n pages were read, all full but the last. */
  predicate Finished(snaps: seq<seq<Row>>, kind: Option<Kind>, limit: nat, n: nat) {
    && 0 < n <= |snaps| && |PageAt(snaps, kind, limit, n - 1)| < limit
    && forall k: nat :: k < n - 1 ==> Full(snaps, kind, limit, k)
  }

  lemma PageSize(rows: seq<Row>, kind: Option<Kind>, limit: nat, offset: nat)
    ensures |Page(rows, kind, limit, offset)| <= limit
  {
  }

  method FetchAt(snaps: seq<seq<Row>>, kind: Option<Kind>, limit: nat, k: nat, offset: nat) returns (page: seq<Row>)
    requires 1 <= limit <= 200 && k < |snaps| && offset == Offset(limit, k) <= MAX_INT
    ensures page == PageAt(snaps, kind, limit, k) && |page| <= limit
  {
    page := Fetch(snaps[k], kind, limit, offset);
    PageSize(snaps[k], kind, limit, offset);
  }

  /** n full pages have been read, and what they show. */
  predicate Walked(snaps: seq<seq<Row>>, kind: Option<Kind>, limit: nat, n: nat, shown: seq<Row>) {
    && n <= |snaps| && shown == Shown(snaps, kind, limit, n)
    && forall k: nat :: k < n ==> Full(snaps, kind, limit, k)
  }

  lemma ShownNext(snaps: seq<seq<Row>>, kind: Option<Kind>, limit: nat, n: nat)
    requires n < |snaps|
    ensures Shown(snaps, kind, limit, n + 1) == Shown(snaps, kind, limit, n) + PageAt(snaps, kind, limit, n)
  {
  }

  lemma FullPage(snaps: seq<seq<Row>>, kind: Option<Kind>, limit: nat, n: nat, shown: seq<Row>, page: seq<Row>)
    requires Walked(snaps, kind, limit, n, shown) && n < |snaps| && page == PageAt(snaps, kind, limit, n)
    requires |page| == limit
    ensures Walked(snaps, kind, limit, n + 1, shown + page)
  {
    ShownNext(snaps, kind, limit, n);
    assert Full(snaps, kind, limit, n);
  }

  lemma ShortPage(snaps: seq<seq<Row>>, kind: Option<Kind>, limit: nat, n: nat, shown: seq<Row>, page: seq<Row>)
    requires Walked(snaps, kind, limit, n, shown) && n < |snaps| && page == PageAt(snaps, kind, limit, n)
    requires |page| < limit
    ensures Finished(snaps, kind, limit, n + 1) && shown + page == Shown(snaps, kind, limit, n + 1)
  {
    ShownNext(snaps, kind, limit, n);
  }

  /** Load more until a page comes back short; snaps[k] is the table when page k is read. */
  method Walk(snaps: seq<seq<Row>>, kind: Option<Kind>, limit: nat) returns (shown: seq<Row>, pages: nat, done: bool)
    requires 1 <= limit <= 200 && Offset(limit, |snaps|) <= MAX_INT
    ensures pages <= |snaps| && shown == Shown(snaps, kind, limit, pages)
    ensures done ==> Finished(snaps, kind, limit, pages)
    ensures !done ==> pages == |snaps| && forall k: nat :: k < pages ==> Full(snaps, kind, limit, k)
  {
    shown, pages, done := [], 0, false;
    var offset := 0;
    while pages < |snaps|
      invariant offset == Offset(limit, pages) && Walked(snaps, kind, limit, pages, shown)
    {
      OffsetsGrow(limit, pages, |snaps|);
      var page := FetchAt(snaps, kind, limit, pages, offset);
      if |page| < limit {
        ShortPage(snaps, kind, limit, pages, shown, page);
        return shown + page, pages + 1, true;
      }
      FullPage(snaps, kind, limit, pages, shown, page);
      shown, pages, offset := shown + page, pages + 1, offset + limit;
    }
  }

  // ---------- Positions only move down the list ----------

  lemma {:induction false} FilteredListing(rows: seq<Row>, kind: Option<Kind>)
    requires Listing(rows)
    ensures Listing(Filtered(rows, kind))
  {
    if rows != [] {
      var init, last := rows[..|rows| - 1], rows[|rows| - 1];
      FilteredListing(init, kind);
      assert forall x :: x in Filtered(init, kind) ==> Newer(x, last);
    }
  }

  /** The rows listed before position i are exactly the newer ones. */
  lemma NewerThan(rows: seq<Row>, i: nat)
    requires Listing(rows) && i < |rows|
    ensures (set r | r in rows && Newer(r, rows[i])) == (set r | r in rows[..i])
    ensures |set r | r in rows[..i]| == i
  {
    forall r | r in rows && Newer(r, rows[i]) ensures r in rows[..i] {
      var j :| 0 <= j < |rows| && rows[j] == r;
      assert j < i;
    }
    forall r | r in rows[..i] ensures r in rows && Newer(r, rows[i]) {
      var j :| 0 <= j < i && rows[..i][j] == r;
      assert rows[j] == r;
    }
    DistinctCount(rows[..i]);
  }

  lemma {:induction false} DistinctCount(rows: seq<Row>)
    requires Listing(rows)
    ensures |set r | r in rows| == |rows|
  {
    if rows == [] {
      assert (set r | r in rows) == {};
    } else {
      var init, last := rows[..|rows| - 1], rows[|rows| - 1];
      DistinctCount(init);
      assert last !in init;
      assert (set r | r in rows) == (set r | r in init) + {last};
    }
  }

  /** In a listing that contains another, every row sits at the same place or later. */
  lemma MovesDown(small: seq<Row>, big: seq<Row>, i: nat, j: nat)
    requires Listing(small) && Listing(big) && (forall r :: r in small ==> r in big)
    requires i < |small| && j < |big| && small[i] == big[j]
    ensures i <= j
  {
    NewerThan(small, i);
    NewerThan(big, j);
    SubsetSize(set r | r in small && Newer(r, small[i]), set r | r in big && Newer(r, big[j]));
  }

  // ---------- Main results ----------

  /** A page shows every row of its window. */
  lemma PageShows(rows: seq<Row>, kind: Option<Kind>, limit: nat, offset: nat, p: nat)
    requires p < |Filtered(rows, kind)| && offset <= p < offset + limit
    ensures Filtered(rows, kind)[p] in Page(rows, kind, limit, offset)
  {
    var page := Page(rows, kind, limit, offset);
    assert page[p - offset] == Filtered(rows, kind)[p];
  }

  /** Row r is at place p of the matching rows. */
  predicate Sits(rows: seq<Row>, kind: Option<Kind>, p: nat, r: Row) {
    p < |Filtered(rows, kind)| && Filtered(rows, kind)[p] == r
  }

  lemma Placed(rows: seq<Row>, kind: Option<Kind>, r: Row) returns (p: nat)
    requires r in Filtered(rows, kind)
    ensures Sits(rows, kind, p, r)
  {
    p :| p < |Filtered(rows, kind)| && Filtered(rows, kind)[p] == r;
  }

  lemma PlaceMoves(small: seq<Row>, big: seq<Row>, kind: Option<Kind>, q: nat, r: Row) returns (p: nat)
    requires Listing(small) && Listing(big) && (forall x :: x in small ==> x in big) && Sits(small, kind, q, r)
    ensures Sits(big, kind, p, r) && q <= p
  {
    assert r in Filtered(small, kind);
    p := Placed(big, kind, r);
    FilteredListing(small, kind);
    FilteredListing(big, kind);
    MovesDown(Filtered(small, kind), Filtered(big, kind), q, p);
  }

  lemma Neighbours(snaps: seq<seq<Row>>, k: nat)
    requires Grows(snaps) && k + 1 < |snaps|
    ensures Listing(snaps[k]) && Listing(snaps[k + 1]) && forall r :: r in snaps[k] ==> r in snaps[k + 1]
  {
  }

  /** A row of the first snapshot is either shown by the first k pages, or still sits at or
      after the start of page k. */
  lemma {:induction false} ShownOrAhead(snaps: seq<seq<Row>>, kind: Option<Kind>, limit: nat, k: nat, r: Row)
    returns (p: nat)
    requires Grows(snaps) && k < |snaps| && r in Filtered(snaps[0], kind)
    ensures Sits(snaps[k], kind, p, r)
    ensures r in Shown(snaps, kind, limit, k) || Offset(limit, k) <= p
  {
    if k == 0 {
      p := Placed(snaps[0], kind, r);
    } else {
      var q := ShownOrAhead(snaps, kind, limit, k - 1, r);
      Neighbours(snaps, k - 1);
      p := PlaceMoves(snaps[k - 1], snaps[k], kind, q, r);
      NextWindow(snaps, kind, limit, k, r, q);
    }
  }

  lemma NextWindow(snaps: seq<seq<Row>>, kind: Option<Kind>, limit: nat, k: nat, r: Row, q: nat)
    requires 0 < k < |snaps| && q < |Filtered(snaps[k - 1], kind)| && Filtered(snaps[k - 1], kind)[q] == r
    requires r in Shown(snaps, kind, limit, k - 1) || Offset(limit, k - 1) <= q
    ensures r in Shown(snaps, kind, limit, k) || Offset(limit, k) <= q
  {
    if r !in Shown(snaps, kind, limit, k - 1) && q < Offset(limit, k) {
      PageShows(snaps[k - 1], kind, limit, Offset(limit, k - 1), q);
    }
  }

  /** At least once: whatever is committed between pages, and wherever it sorts, a walk that
      ends with a short page has shown every matching row that existed when it began. */
  lemma NothingMissed(snaps: seq<seq<Row>>, kind: Option<Kind>, limit: nat, n: nat, r: Row)
    requires Grows(snaps) && limit >= 1 && 0 < n <= |snaps|
    requires |PageAt(snaps, kind, limit, n - 1)| < limit
    requires r in snaps[0] && Matches(r, kind)
    ensures r in Shown(snaps, kind, limit, n)
  {
    var p := ShownOrAhead(snaps, kind, limit, n - 1, r);
    if r !in Shown(snaps, kind, limit, n - 1) {
      var all, offset := Filtered(snaps[n - 1], kind), Offset(limit, n - 1);
      assert |PageAt(snaps, kind, limit, n - 1)| == Min(offset + limit, |all|) - Min(offset, |all|);
      PageShows(snaps[n - 1], kind, limit, offset, p);
    }
  }

  /** The same of the walk itself, page by page from the handler. */
  method WalkAll(snaps: seq<seq<Row>>, kind: Option<Kind>, limit: nat) returns (shown: seq<Row>, done: bool)
    requires Grows(snaps) && 1 <= limit <= 200 && Offset(limit, |snaps|) <= MAX_INT
    ensures done ==> snaps != [] && forall r :: r in snaps[0] && Matches(r, kind) ==> r in shown
    ensures !done ==> forall k: nat :: k < |snaps| ==> Full(snaps, kind, limit, k)
  {
    var pages;
    shown, pages, done := Walk(snaps, kind, limit);
    if done {
      forall r | r in snaps[0] && Matches(r, kind) ensures r in shown {
        NothingMissed(snaps, kind, limit, pages, r);
      }
    }
  }

  lemma NextSlice(all: seq<Row>, offset: nat, limit: nat)
    ensures all[..Min(offset, |all|)] + all[Min(offset, |all|)..Min(offset + limit, |all|)] ==
            all[..Min(offset + limit, |all|)]
  {
  }

  predicate Unchanging(snaps: seq<seq<Row>>, rows: seq<Row>) {
    forall k :: 0 <= k < |snaps| ==> snaps[k] == rows
  }

  lemma {:induction false} ShownPrefix(snaps: seq<seq<Row>>, rows: seq<Row>, kind: Option<Kind>, limit: nat, n: nat)
    requires n <= |snaps| && Unchanging(snaps, rows)
    ensures Shown(snaps, kind, limit, n) == Filtered(rows, kind)[..Min(Offset(limit, n), |Filtered(rows, kind)|)]
  {
    if n == 0 {
      assert Filtered(rows, kind)[..0] == [];
    } else {
      ShownPrefix(snaps, rows, kind, limit, n - 1);
      assert snaps[n - 1] == rows;
      ShownStep(snaps, rows, kind, limit, n);
    }
  }

  lemma ShownStep(snaps: seq<seq<Row>>, rows: seq<Row>, kind: Option<Kind>, limit: nat, n: nat)
    requires 0 < n <= |snaps| && snaps[n - 1] == rows
    requires Shown(snaps, kind, limit, n - 1) ==
             Filtered(rows, kind)[..Min(Offset(limit, n - 1), |Filtered(rows, kind)|)]
    ensures Shown(snaps, kind, limit, n) == Filtered(rows, kind)[..Min(Offset(limit, n), |Filtered(rows, kind)|)]
  {
    NextSlice(Filtered(rows, kind), Offset(limit, n - 1), limit);
  }

  /** Exactly once: over an unchanging table a finished walk shows the matching rows, each
      once and in order. */
  lemma EachOnceInOrder(snaps: seq<seq<Row>>, rows: seq<Row>, kind: Option<Kind>, limit: nat, n: nat)
    requires limit >= 1 && 0 < n <= |snaps| && Unchanging(snaps, rows)
    requires |PageAt(snaps, kind, limit, n - 1)| < limit
    ensures Shown(snaps, kind, limit, n) == Filtered(rows, kind)
  {
    ShownPrefix(snaps, rows, kind, limit, n);
  }
}
