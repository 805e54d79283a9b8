/** The atomic specification: what each service call does when it runs alone, in one
    indivisible step, against the committed ledger. */
module Serial {
  import opened Base

  datatype Request =
    | TransferReq(src: AccountId, dst: AccountId, amount: int, key: string)
    | ReverseReq(original: TxId, key: string)
    | DepositReq(dst: AccountId, amount: int, key: string)
    | CreateReq

  /** The movement of money a call has settled on before it opens its transaction. */
  datatype Move = Move(kind: Kind, debit: AccountId, credit: AccountId, amount: int,
                       key: string, reverses: Option<TxId>)

  function HeaderOf(m: Move, id: TxId): Header {
    Header(id, m.kind, m.key, m.reverses)
  }

  function LegsOf(m: Move, id: TxId): seq<Entry> {
    [Entry(id, m.debit, Debit, m.amount), Entry(id, m.credit, Credit, m.amount)]
  }

  /** The checks made before any query: None when the request may proceed. */
  function Refusal(r: Request): Option<Error> {
    match r
    case TransferReq(src, dst, amount, _) =>
      if amount <= 0 then Some(InvalidAmount)
      else if src == dst then Some(SelfTransfer)
      else if src == EXTERNAL || dst == EXTERNAL then Some(SystemAccount)
      else None
    case DepositReq(dst, amount, _) =>
      if amount <= 0 then Some(InvalidAmount)
      else if dst == EXTERNAL then Some(SystemAccount)
      else None
    case _ => None
  }

  /** What the loop over the original's entries leaves in origSrcID, origDstID and amount:
      the last debit and the last credit win, and unset variables keep their zero values. */
  datatype Scanned = Scanned(src: AccountId, dst: AccountId, amount: int)

  function ScanLegs(legs: seq<Entry>): Scanned {
    if legs == [] then Scanned(0, 0, 0)
    else
      var r := ScanLegs(legs[..|legs| - 1]);
      var e := legs[|legs| - 1];
      if e.direction == Debit then r.(src := e.account, amount := e.amount)
      else r.(dst := e.account)
  }

  /** A reversal debits the original destination and credits the original source. */
  function ReversalMove(original: TxId, key: string, legs: seq<Entry>): Move {
    var r := ScanLegs(legs);
    Move(Reversal, r.dst, r.src, r.amount, key, Some(original))
  }

  function Posted(l: Ledger, m: Move, id: TxId): Ledger
    requires m.debit in l.accounts && m.credit in l.accounts
  {
    var d, c := l.accounts[m.debit], l.accounts[m.credit];
    Ledger(l.accounts[m.debit := d.(balance := d.balance - m.amount)]
                     [m.credit := c.(balance := c.balance + m.amount)],
           l.headers + [HeaderOf(m, id)],
           l.entries + LegsOf(m, id))
  }

  /** The CHECK on accounts.balance. */
  predicate Allowed(a: Account, balance: int) {
    a.isSystem || balance >= 0
  }

  /** What stops the balance updates: missing rows, funds, the column, the CHECK. */
  function BalanceObstacle(l: Ledger, m: Move): (r: Option<Error>)
    ensures r.None? ==> m.debit in l.accounts && m.credit in l.accounts
  {
    if m.debit !in l.accounts || m.credit !in l.accounts || m.debit == m.credit then Some(AccountNotFound)
    else
      var d, c := l.accounts[m.debit], l.accounts[m.credit];
      if m.kind != Deposit && d.balance < m.amount then Some(InsufficientFunds)
      else if !Fits(d.balance - m.amount) then Some(NumericOverflow)
      else if !Allowed(d, d.balance - m.amount) then Some(CheckViolation)
      else if !Fits(c.balance + m.amount) then Some(NumericOverflow)
      else if !Allowed(c, c.balance + m.amount) then Some(CheckViolation)
      else None
  }

  /** What stops the inserted rows. */
  function RowObstacle(l: Ledger, m: Move): Option<Error> {
    if m.reverses.Some? && Reversed(l.headers, m.reverses.value) then Some(AlreadyReversed)
    else if m.amount <= 0 then Some(InvalidAmount)
    else if !Fits(m.amount) then Some(NumericOverflow)
    else None
  }

  /** The first check that stops a movement, in the order the transaction meets them. */
  function Obstacle(l: Ledger, m: Move): (r: Option<Error>)
    ensures r.None? ==> m.debit in l.accounts && m.credit in l.accounts
  {
    if BalanceObstacle(l, m).Some? then BalanceObstacle(l, m) else RowObstacle(l, m)
  }

  function Post(l: Ledger, m: Move, id: TxId): (Ledger, Outcome) {
    match Obstacle(l, m)
    case Some(e) => (l, Err(e))
    case None => (Posted(l, m, id), Ok(HeaderOf(m, id), LegsOf(m, id)))
  }

  function Key(r: Request): string {
    match r
    case CreateReq => ""
    case _ => r.key
  }

  /** One call, alone. `id` is the fresh id the call would be given. */
  function Atomic(l: Ledger, r: Request, id: TxId): (Ledger, Outcome) {
    if r.CreateReq? then
      (l.(accounts := l.accounts[id := Account(0, false)]), Created(id))
    else if Refusal(r).Some? then
      (l, Err(Refusal(r).value))
    else
      match FindKey(l.headers, r.key)
      case Some(h) => (l, Ok(h, EntriesOf(l.entries, h.id)))
      case None =>
        match r
        case TransferReq(src, dst, amount, key) =>
          Post(l, Move(Transfer, src, dst, amount, key, None), id)
        case DepositReq(dst, amount, key) =>
          Post(l, Move(Deposit, EXTERNAL, dst, amount, key, None), id)
        case ReverseReq(original, key) =>
          match FindId(l.headers, original)
          case None => (l, Err(TransactionNotFound))
          case Some(h) =>
            if h.kind != Transfer then (l, Err(NotReversible))
            else Post(l, ReversalMove(original, key, EntriesOf(l.entries, h.id)), id)
  }

  // ---------- The seeded ledger ----------

  const SEED_AMOUNT: int := 100_000_000   // 10000.0000

  const SEED_TX: TxId := 0x0190_0000_0000_7000_8000_0000_0000_0000

  function SeedMove(who: AccountId, key: string): Move {
    Move(Deposit, EXTERNAL, who, SEED_AMOUNT, key, None)
  }

  /** Migrations 0002 and 0003, with the three seed keys as parameters. */
  function SeedWith(a: string, b: string, c: string): Ledger {
    Ledger(
      map[EXTERNAL := Account(-3 * SEED_AMOUNT, true), 2 := Account(SEED_AMOUNT, false),
          3 := Account(SEED_AMOUNT, false), 4 := Account(SEED_AMOUNT, false)],
      [HeaderOf(SeedMove(2, a), SEED_TX + 1), HeaderOf(SeedMove(3, b), SEED_TX + 2),
       HeaderOf(SeedMove(4, c), SEED_TX + 3)],
      LegsOf(SeedMove(2, a), SEED_TX + 1) + LegsOf(SeedMove(3, b), SEED_TX + 2) + LegsOf(SeedMove(4, c), SEED_TX + 3))
  }

  function Seed(): Ledger {
    SeedWith("seed-deposit-alice-001", "seed-deposit-bob-001", "seed-deposit-charlie-001")
  }
}
