/** The rows that authorisation, settlement, reversal, bill payment and deposit
    opening share, and what one committed call of each does to them. */
module CardState {
  import opened Options
  import opened Sums
  import opened Text

  /** The range of `Money`: what PostgreSQL BIGINT and JavaScript numbers share. */
  const MAX_MINOR: int := 0x1F_FFFF_FFFF_FFFF

  datatype Currency = USD | MXN | JPY | BHD

  predicate IsMoney(amount: int) {
    -MAX_MINOR <= amount <= MAX_MINOR
  }

  type User = string
  type CardAccountId = nat

  /** A retrieval reference number; the network's requests bound its length. */
  type Rrn = s: string | |s| <= 12

  /** The hexadecimal texts of a SHA-256 digest and of a random UUID. */
  type Digest = s: string | |s| == 64 witness seq(64, i => '0')
  type Uuid = s: string | |s| == 32 witness seq(32, i => '0')

  /** A ledger account: a customer deposit, the receivable that mirrors a card
      account, or one of the two system counterparties of a currency. */
  datatype LedgerId =
    | Deposit(number: nat)
    | Mirror(card: CardAccountId)
    | ExternalFunding(currency: Currency)
    | MerchantClearing(currency: Currency)

  datatype LedgerAccount = LedgerAccount(
    owner: Option<User>, currency: Currency, active: bool, cleared: int, available: int, limit: int)

  datatype CardAccount = CardAccount(
    owner: User, currency: Currency, active: bool, limit: int, cleared: int, available: int)

  /** `usable`: the card's status is ACTIVE and it is switched on. */
  datatype IssuedCard = IssuedCard(account: CardAccountId, usable: bool)

  datatype HoldStatus = Pending | Flagged | Settled | Reversed | Declined

  datatype Hold = Hold(account: CardAccountId, amount: int, currency: Currency, status: HoldStatus, rrn: Rrn)
  {
    predicate Active() {
      status == Pending || status == Flagged
    }
  }

  datatype Direction = Debit | Credit
  datatype Entry = Entry(account: LedgerId, direction: Direction, amount: int)

  /** The unique key of a transaction, whatever it was posted for: one text column. */
  type TxKey = string
  const KEY_WIDTH := 128

  function SettlementKey(rrn: Rrn): TxKey {
    "card-settlement:" + rrn
  }

  /** `digest` is that of the user and the Idempotency-Key of a payment. */
  function PaymentKey(digest: Digest): TxKey {
    "bill-payment:" + digest
  }

  /** The key of an initial deposit: the caller's text, a fresh one if there is none. */
  function FundingKey(key: Option<string>, uuid: Uuid): TxKey {
    if key.Some? && key.value != "" then key.value else "IDEMP-DEP-" + uuid
  }

  datatype PaymentRequest = PaymentRequest(source: nat, card: CardAccountId, amount: int, currency: Currency)
  datatype PaymentResult = PaymentResult(tx: nat, amount: int, source: int, card: int, available: int)
  datatype Receipt = Receipt(request: PaymentRequest, result: PaymentResult)

  datatype Transaction = Transaction(key: TxKey, currency: Currency, entries: seq<Entry>, receipt: Option<Receipt>)

  /** One line of a card statement; charges are negative, payments positive. */
  datatype StatementLine = StatementLine(account: CardAccountId, hold: Option<nat>, tx: nat, amount: int)

  datatype State = State(
    cards: map<string, IssuedCard>,
    accounts: map<CardAccountId, CardAccount>,
    holds: seq<Hold>,
    statements: seq<StatementLine>,
    journal: seq<Transaction>,
    ledger: map<LedgerId, LedgerAccount>)

  datatype DeclineReason = CardNotFound | CardBlocked | AccountNotFound | AccountFrozen | InsufficientFunds

  datatype Response =
    | AuthReplayed(status: HoldStatus)
    | AuthDeclined(reason: DeclineReason)
    | AuthApproved(status: HoldStatus)
    | SettlementPosted(cleared: int, available: int)
    | HoldReversed(available: int)
    | PaymentPosted(result: PaymentResult)
    | PaymentReplayed(result: PaymentResult)
    | DepositOpened(number: nat)
    | Failed

  /** The two-digit answer of the card network. */
  function ActionCode(r: Response): string
    requires r.AuthReplayed? || r.AuthDeclined? || r.AuthApproved?
  {
    match r
    case AuthReplayed(status) => if status == Pending then "00" else "51"
    case AuthDeclined(CardNotFound) => "75"
    case AuthDeclined(CardBlocked) => "75"
    case AuthDeclined(AccountNotFound) => "83"
    case AuthDeclined(AccountFrozen) => "83"
    case AuthDeclined(InsufficientFunds) => "51"
    case AuthApproved(_) => "00"
  }

  // ---------------------------------------------------------------- holds

  /** The first hold recorded under an RRN, among all or among the active ones. */
  function FindHold(holds: seq<Hold>, rrn: Rrn, activeOnly: bool): (r: Option<nat>)
    ensures r.Some? ==> r.value < |holds| && holds[r.value].rrn == rrn
    ensures r.Some? && activeOnly ==> holds[r.value].Active()
    ensures r.Some? ==> forall i :: 0 <= i < r.value ==> !(holds[i].rrn == rrn && (activeOnly ==> holds[i].Active()))
    ensures r.None? ==> forall h :: h in holds && h.rrn == rrn ==> activeOnly && !h.Active()
  {
    if holds == [] then None else
      var n := |holds| - 1;
      var earlier := FindHold(holds[..n], rrn, activeOnly);
      if earlier.Some? then earlier
      else if holds[n].rrn == rrn && (activeOnly ==> holds[n].Active()) then Some(n)
      else None
  }

  function HeldBy(a: CardAccountId): Hold -> int {
    (h: Hold) => if h.account == a && h.Active() then h.amount else 0
  }

  /** What the active holds of an account reserve. */
  function Held(holds: seq<Hold>, a: CardAccountId): int {
    Sum(holds, HeldBy(a))
  }

  /** An active hold of account `a` that can be added up: an amount of `Money`,
      not negative, in the account's currency. */
  predicate Countable(h: Hold, a: CardAccountId, currency: Currency) {
    h.account == a && h.Active() ==> h.currency == currency && 0 <= h.amount <= MAX_MINOR
  }

  /** The pending total, unless some hold cannot be added up or the total is no `Money`. */
  function PendingTotal(holds: seq<Hold>, a: CardAccountId, currency: Currency): Option<int> {
    if (forall h <- holds :: Countable(h, a, currency)) && IsMoney(Held(holds, a))
    then Some(Held(holds, a)) else None
  }

  function Min(a: int, b: int): int { if a <= b then a else b }
  function Max(a: int, b: int): int { if a >= b then a else b }

  function AvailableCredit(limit: int, cleared: int, held: int): int {
    Max(0, Min(limit, limit - cleared - held))
  }

  /** Account `a` with its cached available credit computed afresh. */
  function Recalculated(holds: seq<Hold>, a: CardAccountId, account: CardAccount): Option<CardAccount> {
    var pending := PendingTotal(holds, a, account.currency);
    if pending.None? then None
    else Some(account.(available := AvailableCredit(account.limit, account.cleared, pending.value)))
  }

  // -------------------------------------------------------------- journal

  function SignedFor(id: LedgerId): Entry -> int {
    (e: Entry) => if e.account != id then 0 else if e.direction == Credit then e.amount else -e.amount
  }

  function Directed(d: Direction): Entry -> int {
    (e: Entry) => if e.direction == d then e.amount else 0
  }

  function TxNet(id: LedgerId): Transaction -> int {
    (t: Transaction) => Sum(t.entries, SignedFor(id))
  }

  /** Credits minus debits of one account over the whole journal. */
  function NetCredit(journal: seq<Transaction>, id: LedgerId): int {
    Sum(journal, TxNet(id))
  }

  function FindKey(journal: seq<Transaction>, key: TxKey): (r: Option<nat>)
    ensures r.Some? ==> r.value < |journal| && journal[r.value].key == key
    ensures r.None? ==> forall t :: t in journal ==> t.key != key
  {
    if journal == [] then None else
      var n := |journal| - 1;
      if journal[n].key == key then Some(n) else FindKey(journal[..n], key)
  }

  datatype Posting = Appended(tx: nat) | AlreadyPosted(tx: nat) | Refused

  /** What posting `entries` under `key` does: append them, find the same entries
      already there, or refuse. */
  function Post(s: State, key: TxKey, currency: Currency, entries: seq<Entry>): (p: Posting)
    ensures p.Appended? ==> p.tx == |s.journal|
    ensures p.AlreadyPosted? ==> p.tx < |s.journal|
  {
    if (exists e <- entries :: e.amount <= 0) || |entries| < 2
       || Sum(entries, Directed(Debit)) != Sum(entries, Directed(Credit)) then Refused
    else
      var existing := FindKey(s.journal, key);
      if existing.Some? then
        var t := s.journal[existing.value];
        if t.currency == currency && multiset(t.entries) == multiset(entries)
        then AlreadyPosted(existing.value) else Refused
      else if exists e <- entries :: e.account !in s.ledger || s.ledger[e.account].currency != currency then Refused
      else if |key| > KEY_WIDTH then Refused
      else Appended(|s.journal|)
  }

  /** A transfer of `amount` from the debited to the credited account. */
  function Transfer(debited: LedgerId, credited: LedgerId, amount: int): seq<Entry> {
    [Entry(debited, Debit, amount), Entry(credited, Credit, amount)]
  }

  /** The journal mirror of a card account, brought in line with it or created. */
  function EnsureMirror(ledger: map<LedgerId, LedgerAccount>, a: CardAccountId, account: CardAccount)
    : Option<map<LedgerId, LedgerAccount>>
  {
    var id := Mirror(a);
    if id in ledger && ledger[id].currency != account.currency then None
    else
      var owner := if id in ledger then ledger[id].owner else Some(account.owner);
      Some(ledger[id := LedgerAccount(owner, account.currency, account.active,
                                      account.cleared, account.available, account.limit)])
  }

  /** A system counterparty, created with a zero balance when it is missing. */
  function EnsureSystem(ledger: map<LedgerId, LedgerAccount>, id: LedgerId, currency: Currency)
    : Option<map<LedgerId, LedgerAccount>>
  {
    if id in ledger then (if ledger[id].currency == currency then Some(ledger) else None)
    else Some(ledger[id := LedgerAccount(None, currency, true, 0, 0, 0)])
  }

  // ---------------------------------------------------- one committed call

  /** An authorisation request; `flagged` is what the fraud model answers. */
  function Authorize(s: State, token: string, rrn: Rrn, amount: int, flagged: bool): (State, Response) {
    var prior := FindHold(s.holds, rrn, false);
    if prior.Some? then (s, AuthReplayed(s.holds[prior.value].status))
    else if token !in s.cards then (s, AuthDeclined(CardNotFound))
    else if !s.cards[token].usable then (s, AuthDeclined(CardBlocked))
    else
      var a := s.cards[token].account;
      if a !in s.accounts then (s, AuthDeclined(AccountNotFound))
      else if !s.accounts[a].active then (s, AuthDeclined(AccountFrozen))
      else if amount > s.accounts[a].available then
        (s.(holds := s.holds + [Hold(a, amount, USD, Declined, rrn)]), AuthDeclined(InsufficientFunds))
      else
        var status := if flagged then Flagged else Pending;
        var holds := s.holds + [Hold(a, amount, USD, status, rrn)];
        var account := Recalculated(holds, a, s.accounts[a]);
        if account.None? then (s, Failed)
        else (s.(holds := holds, accounts := s.accounts[a := account.value]), AuthApproved(status))
  }

  /** Post `entries` for card account `a` under `key`, add the statement line that
      `tx` may appear on only once, move the debt by `delta` and bring cached credit
      and mirror in line. `None` when any of this raises. */
  function Book(s: State, a: CardAccountId, key: TxKey, currency: Currency, entries: seq<Entry>,
                hold: Option<nat>, delta: int): Option<(State, nat)>
    requires a in s.accounts && Mirror(a) in s.ledger
  {
    var posting := Post(s, key, currency, entries);
    if posting.Refused? || (exists line <- s.statements :: line.tx == posting.tx) then None else
    var after := Recalculated(s.holds, a, s.accounts[a].(cleared := s.accounts[a].cleared + delta));
    if after.None? then None else
    var mirror := s.ledger[Mirror(a)].(cleared := after.value.cleared, available := after.value.available);
    Some((s.(journal := if !posting.Appended? then s.journal
                        else s.journal + [Transaction(key, currency, entries, None)],
             statements := s.statements + [StatementLine(a, hold, posting.tx, -delta)],
             accounts := s.accounts[a := after.value],
             ledger := s.ledger[Mirror(a) := mirror]),
          posting.tx))
  }

  function Settle(s: State, rrn: Rrn, amount: int): (State, Response) {
    if amount <= 0 || !IsMoney(amount) then (s, Failed) else
    var found := FindHold(s.holds, rrn, true);
    if found.None? then (s, Failed) else
    var i := found.value;
    var a := s.holds[i].account;
    if a !in s.accounts then (s, Failed) else
    var mirrored := EnsureMirror(s.ledger, a, s.accounts[a]);
    if mirrored.None? then (s, Failed) else
    var clearing := MerchantClearing(s.accounts[a].currency);
    var ledger := EnsureSystem(mirrored.value, clearing, s.accounts[a].currency);
    if ledger.None? then (s, Failed) else
    var booked := Book(s.(holds := s.holds[i := s.holds[i].(status := Settled)], ledger := ledger.value),
                       a, SettlementKey(rrn), s.holds[i].currency, Transfer(Mirror(a), clearing, amount),
                       Some(i), amount);
    if booked.None? then (s, Failed) else
    var s' := booked.value.0;
    (s', SettlementPosted(s'.accounts[a].cleared, s'.accounts[a].available))
  }

  function Reverse(s: State, rrn: Rrn): (State, Response) {
    var found := FindHold(s.holds, rrn, true);
    if found.None? then (s, Failed) else
    var i := found.value;
    var a := s.holds[i].account;
    if a !in s.accounts then (s, Failed) else
    var holds := s.holds[i := s.holds[i].(status := Reversed)];
    var after := Recalculated(holds, a, s.accounts[a]);
    if after.None? then (s, Failed) else
    (s.(holds := holds, accounts := s.accounts[a := after.value]), HoldReversed(after.value.available))
  }

  /** The answer already stored under a payment's key, if there is one: the stored
      result for the same request, an error for another one. */
  function Replay(journal: seq<Transaction>, key: TxKey, request: PaymentRequest): Option<Response> {
    var existing := FindKey(journal, key);
    if existing.None? then None
    else
      var receipt := journal[existing.value].receipt;
      if receipt.Some? && receipt.value.request == request
      then Some(PaymentReplayed(receipt.value.result)) else Some(Failed)
  }

  function Pay(s: State, user: User, request: PaymentRequest, key: string, digest: Digest): (State, Response) {
    var PaymentRequest(sourceNumber, a, amount, currency) := request;
    if amount <= 0 || !IsMoney(amount) || IsBlank(key) || |key| > 128 then (s, Failed) else
    var durable := PaymentKey(digest);
    var previous := Replay(s.journal, durable, request);
    if previous.Some? then (s, previous.value) else
    var source := Deposit(sourceNumber);
    if source !in s.ledger || s.ledger[source].owner != Some(user) || !s.ledger[source].active then (s, Failed) else
    if a !in s.accounts || s.accounts[a].owner != user || !s.accounts[a].active then (s, Failed) else
    if s.ledger[source].currency != currency || s.accounts[a].currency != currency then (s, Failed) else
    if s.ledger[source].cleared < amount || s.accounts[a].cleared < amount then (s, Failed) else
    var mirrored := EnsureMirror(s.ledger, a, s.accounts[a]);
    if mirrored.None? then (s, Failed) else
    var payer := mirrored.value[source].(cleared := mirrored.value[source].cleared - amount);
    var booked := Book(s.(ledger := mirrored.value[source := payer]), a, durable, currency,
                       Transfer(source, Mirror(a), amount), None, -amount);
    if booked.None? then (s, Failed) else
    var (s', tx) := booked.value;
    var after := s'.accounts[a];
    if !IsMoney(payer.cleared) || !IsMoney(after.cleared) || !IsMoney(after.available) then (s, Failed) else
    var result := PaymentResult(tx, amount, payer.cleared, after.cleared, after.available);
    var stored := s'.journal[tx].(receipt := Some(Receipt(request, result)));
    (s'.(journal := s'.journal[tx := stored]), PaymentPosted(result))
  }

  /** A deposit account `number`, fresh by its primary key, opened with `initial` minor
      units; `uuid` makes the key when the caller gives no text. */
  function Open(s: State, user: User, number: nat, initial: nat, key: Option<string>, uuid: Uuid): (State, Response) {
    var id := Deposit(number);
    if id in s.ledger then (s, Failed) else
    var grown := s.ledger[id := LedgerAccount(Some(user), USD, true, initial, 0, 0)];
    if initial == 0 then (s.(ledger := grown), DepositOpened(number)) else
    var system := ExternalFunding(USD);
    var ledger := EnsureSystem(grown, system, USD);
    if ledger.None? || !IsMoney(initial) then (s, Failed) else
    var entries := Transfer(system, id, initial);
    var posting := Post(s.(ledger := ledger.value), FundingKey(key, uuid), USD, entries);
    if posting.Refused? then (s, Failed) else
    var journal := if posting.Appended?
                   then s.journal + [Transaction(FundingKey(key, uuid), USD, entries, None)] else s.journal;
    var funding := ledger.value[system].(cleared := ledger.value[system].cleared + initial);
    (s.(journal := journal, ledger := ledger.value[system := funding]), DepositOpened(number))
  }

  datatype Op =
    | OpAuthorize(token: string, rrn: Rrn, amount: int, flagged: bool)
    | OpSettle(rrn: Rrn, amount: int)
    | OpReverse(rrn: Rrn)
    | OpPay(user: User, request: PaymentRequest, key: string, digest: Digest)
    | OpOpen(user: User, number: nat, initial: nat, header: Option<string>, uuid: Uuid)

  function Step(s: State, op: Op): (State, Response) {
    match op
    case OpAuthorize(token, rrn, amount, flagged) => Authorize(s, token, rrn, amount, flagged)
    case OpSettle(rrn, amount) => Settle(s, rrn, amount)
    case OpReverse(rrn) => Reverse(s, rrn)
    case OpPay(user, request, key, digest) => Pay(s, user, request, key, digest)
    case OpOpen(user, number, initial, key, uuid) => Open(s, user, number, initial, key, uuid)
  }

  function Run(s: State, ops: seq<Op>): State {
    if ops == [] then s else Step(Run(s, ops[..|ops| - 1]), ops[|ops| - 1]).0
  }
}
