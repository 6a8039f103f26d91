/** What every committed call keeps true of the redundant copies of a balance:
    holds, cached credit, journal, ledger balances and statement lines. */
module CardInvariants {
  import opened Options
  import opened Sums
  import opened CardState

  // ------------------------------------------------------------ invariant

  /** One hold per RRN, each of an existing account; active ones can be added up. */
  ghost predicate HoldsOk(s: State) {
    && (forall i, j :: 0 <= i < j < |s.holds| ==> s.holds[i].rrn != s.holds[j].rrn)
    && (forall h <- s.holds :: h.account in s.accounts)
    && (forall h <- s.holds :: Countable(h, h.account, s.accounts[h.account].currency))
  }

  /** The cached available credit is the one recomputed from all holds. */
  ghost predicate CreditOk(s: State) {
    forall a <- s.accounts ::
      && 0 <= Held(s.holds, a) <= MAX_MINOR
      && s.accounts[a].available == AvailableCredit(s.accounts[a].limit, s.accounts[a].cleared, Held(s.holds, a))
  }

  predicate IsPaymentKey(key: TxKey) {
    "bill-payment:" <= key
  }

  /** A transaction moves one positive amount between two accounts of its currency:
      funding into a deposit, a charge to the merchants, or a deposit into a card. */
  predicate TxOk(t: Transaction, ledger: map<LedgerId, LedgerAccount>) {
    && |t.entries| == 2
    && var debited, credited := t.entries[0].account, t.entries[1].account;
    && t.entries == Transfer(debited, credited, t.entries[0].amount)
    && 0 < t.entries[0].amount
    && debited in ledger && ledger[debited].currency == t.currency
    && credited in ledger && ledger[credited].currency == t.currency
    && (|| (debited.ExternalFunding? && credited.Deposit?)
        || (debited.Mirror? && credited.MerchantClearing?)
        || (debited.Deposit? && credited.Mirror?))
    && (debited.Deposit? <==> t.receipt.Some?)
    && (debited.Deposit? ==> IsPaymentKey(t.key))
  }

  ghost predicate JournalOk(s: State) {
    && (forall i, j :: 0 <= i < j < |s.journal| ==> s.journal[i].key != s.journal[j].key)
    && (forall t <- s.journal :: TxOk(t, s.ledger))
  }

  /** The cached balance of a ledger account is what its journal entries add up to,
      and a card's debt is the balance of its mirror; merchant clearing alone keeps no cache. */
  ghost predicate BalanceOk(s: State, id: LedgerId)
    requires id in s.ledger
  {
    var cleared := s.ledger[id].cleared;
    match id
    case Deposit(_) => 0 <= cleared <= MAX_MINOR && cleared == NetCredit(s.journal, id)
    case Mirror(a) =>
      && a in s.accounts && s.ledger[id].currency == s.accounts[a].currency
      && cleared == s.accounts[a].cleared == -NetCredit(s.journal, id)
    case ExternalFunding(c) => s.ledger[id].currency == c && cleared == -NetCredit(s.journal, id)
    case MerchantClearing(c) => s.ledger[id].currency == c && cleared == 0
  }

  ghost predicate BalancesOk(s: State) {
    && (forall id <- s.ledger :: BalanceOk(s, id))
    && (forall a <- s.accounts :: 0 <= s.accounts[a].cleared)
    && (forall a <- s.accounts :: Mirror(a) !in s.ledger ==> s.accounts[a].cleared == 0)
  }

  function OnStatementOf(a: CardAccountId): StatementLine -> int {
    (l: StatementLine) => if l.account == a then l.amount else 0
  }

  function StatementSum(s: State, a: CardAccountId): int {
    Sum(s.statements, OnStatementOf(a))
  }

  function ForHold(i: nat): StatementLine -> int {
    (l: StatementLine) => if l.hold == Some(i) then 1 else 0
  }

  /** A charge line is the settled hold it names and the posting under that hold's
      settlement key; a payment line is a posting out of a deposit. */
  ghost predicate LineOk(s: State, l: StatementLine) {
    && l.tx < |s.journal|
    && l.account in s.accounts
    && var t := s.journal[l.tx];
    if l.hold.Some? then
      && l.hold.value < |s.holds|
      && var h := s.holds[l.hold.value];
      && h.status == Settled && h.account == l.account && l.amount < 0
      && t.key == SettlementKey(h.rrn)
      && t.entries == Transfer(Mirror(l.account), MerchantClearing(s.accounts[l.account].currency), -l.amount)
    else
      && 0 < l.amount
      && IsPaymentKey(t.key) && t.receipt.Some?
      && t.entries == Transfer(Deposit(t.receipt.value.request.source), Mirror(l.account), l.amount)
  }

  predicate OnCard(t: Transaction) {
    exists e <- t.entries :: e.account.Mirror?
  }

  /** Statement lines and card postings match one to one, and so do charge lines and settled holds. */
  ghost predicate StatementsOk(s: State) {
    && (forall l <- s.statements :: LineOk(s, l))
    && (forall i, j :: 0 <= i < j < |s.statements| ==> s.statements[i].tx != s.statements[j].tx)
    && (forall t: nat :: t < |s.journal| && OnCard(s.journal[t]) ==> exists l <- s.statements :: l.tx == t)
    && (forall a <- s.accounts :: s.accounts[a].cleared == -StatementSum(s, a))
    && (forall i: nat :: i < |s.holds| ==>
          Sum(s.statements, ForHold(i)) == if s.holds[i].status == Settled then 1 else 0)
  }

  ghost predicate Valid(s: State) {
    HoldsOk(s) && CreditOk(s) && JournalOk(s) && BalancesOk(s) && StatementsOk(s)
  }

  // ------------------------------------------------------- sums under steps

  lemma HeldAppend(holds: seq<Hold>, h: Hold, a: CardAccountId)
    ensures Held(holds + [h], a) == Held(holds, a) + HeldBy(a)(h)
  {
    SumAppend(holds, h, HeldBy(a));
  }

  lemma HeldUpdate(holds: seq<Hold>, i: nat, h: Hold, a: CardAccountId)
    requires i < |holds|
    ensures Held(holds[i := h], a) == Held(holds, a) - HeldBy(a)(holds[i]) + HeldBy(a)(h)
  {
    SumUpdate(holds, i, h, HeldBy(a));
  }

  /** The active amounts of an account bound each other and their sum. */
  lemma HeldBounds(s: State, a: CardAccountId)
    requires HoldsOk(s)
    ensures 0 <= Held(s.holds, a)
    ensures forall h <- s.holds :: HeldBy(a)(h) <= Held(s.holds, a)
  {
    SumNonNegative(s.holds, HeldBy(a));
  }

  lemma TransferNet(key: TxKey, c: Currency, debited: LedgerId, credited: LedgerId, amount: int,
                    receipt: Option<Receipt>, id: LedgerId)
    requires debited != credited
    ensures TxNet(id)(Transaction(key, c, Transfer(debited, credited, amount), receipt))
            == if id == debited then -amount else if id == credited then amount else 0
  {
    var es := Transfer(debited, credited, amount);
    var f := SignedFor(id);
    SumAppend([], es[0], f);
    SumAppend([es[0]], es[1], f);
    assert [] + [es[0]] == [es[0]] && [es[0]] + [es[1]] == es;
  }

  /** A two-sided transfer is balanced. */
  lemma TransferBalanced(debited: LedgerId, credited: LedgerId, amount: int, d: Direction)
    ensures Sum(Transfer(debited, credited, amount), Directed(d)) == amount
  {
    var es := Transfer(debited, credited, amount);
    var f := Directed(d);
    SumAppend([], es[0], f);
    SumAppend([es[0]], es[1], f);
    assert [] + [es[0]] == [es[0]] && [es[0]] + [es[1]] == es;
  }

  /** Nothing was ever posted to an account the ledger does not hold. */
  lemma UnknownNetZero(s: State, id: LedgerId)
    requires JournalOk(s) && id !in s.ledger
    ensures NetCredit(s.journal, id) == 0
  {
    forall t <- s.journal ensures TxNet(id)(t) == 0 {
      assert TxOk(t, s.ledger);
      TransferNet(t.key, t.currency, t.entries[0].account, t.entries[1].account, t.entries[0].amount, t.receipt, id);
    }
    SumZero(s.journal, TxNet(id));
  }
}
