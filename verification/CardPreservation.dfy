/** Every committed call keeps the invariant. */
module CardPreservation {
  import opened Options
  import opened Sums
  import opened CardState
  import opened CardInvariants

  // ------------------------------------------- holds and credit of one account

  /** The holds change, those of other accounts do not, and account `a` is recomputed. */
  ghost predicate Rebalanced(s: State, s': State, a: CardAccountId) {
    && a in s.accounts && a in s'.accounts
    && var before := s.accounts[a];
    && s'.accounts == s.accounts[a := s'.accounts[a]]
    && s'.accounts[a] == before.(cleared := s'.accounts[a].cleared, available := s'.accounts[a].available)
    && Recalculated(s'.holds, a, s'.accounts[a]) == Some(s'.accounts[a])
    && forall b <- s.accounts :: b != a ==> Held(s'.holds, b) == Held(s.holds, b)
  }

  lemma RecalculatedIs(holds: seq<Hold>, a: CardAccountId, account: CardAccount)
    requires Recalculated(holds, a, account).Some?
    ensures var after := Recalculated(holds, a, account).value;
      && after == account.(available := after.available)
      && Recalculated(holds, a, after) == Some(after)
    ensures forall h <- holds :: Countable(h, a, account.currency)
  {
  }

  lemma RebalancedKeepsCredit(s: State, s': State, a: CardAccountId)
    requires CreditOk(s) && HoldsOk(s') && Rebalanced(s, s', a)
    ensures CreditOk(s')
  {
    HeldBounds(s', a);
  }

  /** Journal, statement lines and debts are as before, and so are the settled holds. */
  ghost predicate SameBooks(s: State, s': State) {
    && s'.journal == s.journal && s'.statements == s.statements
    && s'.accounts.Keys == s.accounts.Keys
    && (forall a <- s.accounts ::
          s'.accounts[a].cleared == s.accounts[a].cleared && s'.accounts[a].currency == s.accounts[a].currency)
    && |s.holds| <= |s'.holds|
    && (forall i :: 0 <= i < |s.holds| ==>
          && s'.holds[i].account == s.holds[i].account && s'.holds[i].rrn == s.holds[i].rrn
          && (s'.holds[i].status == Settled <==> s.holds[i].status == Settled))
    && (forall i :: |s.holds| <= i < |s'.holds| ==> s'.holds[i].status != Settled)
  }

  lemma SameBooksKeepStatements(s: State, s': State)
    requires StatementsOk(s) && SameBooks(s, s')
    ensures StatementsOk(s')
  {
    forall l <- s'.statements ensures LineOk(s', l) {
      assert LineOk(s, l);
    }
    forall i: nat | i < |s'.holds|
      ensures Sum(s'.statements, ForHold(i)) == if s'.holds[i].status == Settled then 1 else 0
    {
      if |s.holds| <= i {
        forall l <- s.statements ensures ForHold(i)(l) == 0 {
          assert LineOk(s, l);
        }
        SumZero(s.statements, ForHold(i));
      }
    }
    forall a <- s'.accounts ensures s'.accounts[a].cleared == -StatementSum(s', a) {
      assert s.accounts[a].cleared == -StatementSum(s, a);
    }
  }

  lemma SameBooksKeepBalances(s: State, s': State)
    requires BalancesOk(s) && SameBooks(s, s') && s'.ledger == s.ledger
    ensures BalancesOk(s')
  {
    forall id <- s'.ledger ensures BalanceOk(s', id) {
      assert BalanceOk(s, id);
    }
  }

  /** Neither holds nor accounts changed. */
  lemma SameHoldsKeepCredit(s: State, s': State)
    requires HoldsOk(s) && CreditOk(s) && s'.holds == s.holds && s'.accounts == s.accounts
    ensures HoldsOk(s') && CreditOk(s')
  {
  }

  lemma SameJournalKeeps(s: State, s': State)
    requires JournalOk(s) && s'.journal == s.journal && s'.ledger == s.ledger
    ensures JournalOk(s')
  {
  }

  /** Holds change, one account's cached credit is computed afresh, nothing else moves. */
  lemma RebalancedKeepsValid(s: State, s': State, a: CardAccountId)
    requires Valid(s) && HoldsOk(s') && Rebalanced(s, s', a) && SameBooks(s, s') && s'.ledger == s.ledger
    ensures Valid(s')
  {
    hide HoldsOk, CreditOk, JournalOk, BalancesOk, StatementsOk, Recalculated;
    RebalancedKeepsCredit(s, s', a);
    SameJournalKeeps(s, s');
    SameBooksKeepStatements(s, s');
    SameBooksKeepBalances(s, s');
  }

  // ---------------------------------------------------------- authorisation

  /** A hold under a new RRN, active only if it can be added up, joins the others. */
  lemma AppendHoldKeepsHolds(s: State, h: Hold)
    requires HoldsOk(s) && h.account in s.accounts
    requires Countable(h, h.account, s.accounts[h.account].currency)
    requires forall o <- s.holds :: o.rrn != h.rrn
    ensures HoldsOk(s.(holds := s.holds + [h]))
  {
  }

  lemma DeclineKeepsValid(s: State, h: Hold)
    requires Valid(s) && h.account in s.accounts && h.status == Declined
    requires forall o <- s.holds :: o.rrn != h.rrn
    ensures Valid(s.(holds := s.holds + [h]))
  {
    hide JournalOk, BalancesOk, StatementsOk;
    var s' := s.(holds := s.holds + [h]);
    AppendHoldKeepsHolds(s, h);
    forall b <- s.accounts ensures Held(s'.holds, b) == Held(s.holds, b) {
      HeldAppend(s.holds, h, b);
    }
    SameJournalKeeps(s, s');
    SameBooksKeepStatements(s, s');
    SameBooksKeepBalances(s, s');
  }

  lemma ApproveKeepsValid(s: State, h: Hold, account: CardAccount)
    requires Valid(s) && h.account in s.accounts && h.Active()
    requires forall o <- s.holds :: o.rrn != h.rrn
    requires Recalculated(s.holds + [h], h.account, s.accounts[h.account]) == Some(account)
    ensures Valid(s.(holds := s.holds + [h], accounts := s.accounts[h.account := account]))
  {
    hide CreditOk, JournalOk, BalancesOk, StatementsOk, Recalculated;
    RecalculatedIs(s.holds + [h], h.account, s.accounts[h.account]);
    var a := h.account;
    var s' := s.(holds := s.holds + [h], accounts := s.accounts[a := account]);
    assert h in s'.holds;
    AppendHoldKeepsHolds(s, h);
    forall b <- s.accounts | b != a ensures Held(s'.holds, b) == Held(s.holds, b) {
      HeldAppend(s.holds, h, b);
    }
    RebalancedKeepsValid(s, s', a);
  }

  lemma AuthorizeKeepsValid(s: State, token: string, rrn: Rrn, amount: int, flagged: bool)
    requires Valid(s)
    ensures Valid(Authorize(s, token, rrn, amount, flagged).0)
  {
    hide Valid;
    var (s', r) := Authorize(s, token, rrn, amount, flagged);
    if r == AuthDeclined(InsufficientFunds) {
      DeclineKeepsValid(s, Hold(s.cards[token].account, amount, USD, Declined, rrn));
    } else if r.AuthApproved? {
      var a := s.cards[token].account;
      ApproveKeepsValid(s, Hold(a, amount, USD, r.status, rrn), s'.accounts[a]);
    }
  }

  // ---------------------------------------------------------------- reversal

  /** Hold `i` leaves the active ones. */
  lemma ReleaseHold(s: State, i: nat, status: HoldStatus)
    requires HoldsOk(s) && i < |s.holds| && !s.holds[i].(status := status).Active()
    ensures HoldsOk(s.(holds := s.holds[i := s.holds[i].(status := status)]))
    ensures forall b :: Held(s.holds[i := s.holds[i].(status := status)], b)
                        == Held(s.holds, b) - HeldBy(b)(s.holds[i])
  {
    var h := s.holds[i].(status := status);
    forall b ensures Held(s.holds[i := h], b) == Held(s.holds, b) - HeldBy(b)(s.holds[i]) {
      HeldUpdate(s.holds, i, h, b);
    }
  }

  lemma ReleaseKeepsValid(s: State, i: nat, account: CardAccount)
    requires Valid(s) && i < |s.holds| && s.holds[i].Active() && s.holds[i].account in s.accounts
    requires Recalculated(s.holds[i := s.holds[i].(status := Reversed)], s.holds[i].account,
                          s.accounts[s.holds[i].account]) == Some(account)
    ensures Valid(s.(holds := s.holds[i := s.holds[i].(status := Reversed)],
                     accounts := s.accounts[s.holds[i].account := account]))
  {
    hide CreditOk, JournalOk, BalancesOk, StatementsOk, Recalculated;
    RecalculatedIs(s.holds[i := s.holds[i].(status := Reversed)], s.holds[i].account, s.accounts[s.holds[i].account]);
    var a := s.holds[i].account;
    var s' := s.(holds := s.holds[i := s.holds[i].(status := Reversed)], accounts := s.accounts[a := account]);
    ReleaseHold(s, i, Reversed);
    RebalancedKeepsValid(s, s', a);
  }

  lemma ReverseKeepsValid(s: State, rrn: Rrn)
    requires Valid(s)
    ensures Valid(Reverse(s, rrn).0)
  {
    hide Valid;
    var (s', r) := Reverse(s, rrn);
    if r.HoldReversed? {
      var i := FindHold(s.holds, rrn, true).value;
      ReleaseKeepsValid(s, i, s'.accounts[s.holds[i].account]);
    }
  }

  // ------------------------------------------------------- counterparties

  /** Ledger accounts are added, never dropped, and keep their currency. */
  ghost predicate LedgerGrows(ledger: map<LedgerId, LedgerAccount>, ledger': map<LedgerId, LedgerAccount>) {
    forall id <- ledger :: id in ledger' && ledger'[id].currency == ledger[id].currency
  }

  lemma GrowthKeepsJournal(s: State, ledger: map<LedgerId, LedgerAccount>)
    requires JournalOk(s) && LedgerGrows(s.ledger, ledger)
    ensures JournalOk(s.(ledger := ledger))
  {
    forall t <- s.journal ensures TxOk(t, ledger) {
      assert TxOk(t, s.ledger);
    }
  }

  /** Creating a counterparty, or bringing a mirror in line, keeps the invariant. */
  lemma EnsureKeepsValid(s: State, id: LedgerId, row: LedgerAccount)
    requires Valid(s) && !id.Deposit?
    requires id in s.ledger ==> row.currency == s.ledger[id].currency
    requires row.cleared == if id.Mirror? && id.card in s.accounts then s.accounts[id.card].cleared
                            else if id in s.ledger then s.ledger[id].cleared else 0
    requires id.Mirror? ==> id.card in s.accounts && row.currency == s.accounts[id.card].currency
    requires !id.Mirror? ==> row.currency == id.currency
    ensures Valid(s.(ledger := s.ledger[id := row]))
  {
    hide HoldsOk, CreditOk, StatementsOk;
    var s' := s.(ledger := s.ledger[id := row]);
    GrowthKeepsJournal(s, s'.ledger);
    forall k <- s'.ledger ensures BalanceOk(s', k) {
      if k in s.ledger {
        assert BalanceOk(s, k);
      } else {
        UnknownNetZero(s, k);
      }
    }
    SameHoldsKeepCredit(s, s');
    SameBooksKeepStatements(s, s');
  }

  // ------------------------------------------------- a posting on a card account

  lemma NetAppend(journal: seq<Transaction>, t: Transaction, id: LedgerId)
    ensures NetCredit(journal + [t], id) == NetCredit(journal, id) + TxNet(id)(t)
  {
    SumAppend(journal, t, TxNet(id));
  }

  /** The debt a transaction adds to the card account whose mirror it touches. */
  function DebtOf(t: Transaction): int
    requires |t.entries| == 2
  {
    if t.entries[0].account.Mirror? then t.entries[0].amount else -t.entries[0].amount
  }

  /** From `s`, transaction `t` between mirror `a` and `other` is appended with its
      statement line, and debt, mirror and paying deposit follow it. */
  ghost predicate CardPosting(s: State, s': State, a: CardAccountId, other: LedgerId, t: Transaction,
                              line: StatementLine) {
    && a in s.accounts && Mirror(a) in s.ledger && other in s.ledger
    && TxOk(t, s.ledger)
    && (|| (other.MerchantClearing? && t.entries[0].account == Mirror(a) && t.entries[1].account == other)
        || (other.Deposit? && t.entries[0].account == other && t.entries[1].account == Mirror(a)))
    && FindKey(s.journal, t.key).None?
    && line.account == a && line.tx == |s.journal| && line.amount == -DebtOf(t)
    && 0 <= s.accounts[a].cleared + DebtOf(t)
    && a in s'.accounts
    && var after := s.accounts[a].(cleared := s.accounts[a].cleared + DebtOf(t), available := s'.accounts[a].available);
    && var mirror := s.ledger[Mirror(a)].(cleared := after.cleared, available := after.available);
    && (other.Deposit? ==> DebtOf(t) + s.ledger[other].cleared >= 0)
    && s'.journal == s.journal + [t]
    && s'.statements == s.statements + [line]
    && s'.accounts == s.accounts[a := after]
    && s'.ledger == (if other.Deposit?
                     then s.ledger[other := s.ledger[other].(cleared := s.ledger[other].cleared + DebtOf(t))]
                     else s.ledger)[Mirror(a) := mirror]
  }

  lemma PostingKeepsJournal(s: State, s': State, a: CardAccountId, other: LedgerId, t: Transaction, line: StatementLine)
    requires JournalOk(s) && CardPosting(s, s', a, other, t, line)
    ensures JournalOk(s')
  {
    GrowthKeepsJournal(s, s'.ledger);
    forall u <- s'.journal ensures TxOk(u, s'.ledger) {
      if u in s.journal {
        assert TxOk(u, s'.ledger);
      }
    }
  }

  lemma PostingKeepsBalances(s: State, s': State, a: CardAccountId, other: LedgerId, t: Transaction,
                             line: StatementLine)
    requires BalancesOk(s) && CardPosting(s, s', a, other, t, line)
    ensures BalancesOk(s')
  {
    forall id <- s'.ledger ensures BalanceOk(s', id) {
      NetAppend(s.journal, t, id);
      TransferNet(t.key, t.currency, t.entries[0].account, t.entries[1].account, t.entries[0].amount, t.receipt, id);
      assert BalanceOk(s, id);
    }
  }

  lemma PostingKeepsStatementSums(s: State, s': State, a: CardAccountId, other: LedgerId, t: Transaction,
                                  line: StatementLine)
    requires StatementsOk(s) && CardPosting(s, s', a, other, t, line)
    ensures forall b <- s'.accounts :: s'.accounts[b].cleared == -StatementSum(s', b)
  {
    forall b <- s'.accounts ensures s'.accounts[b].cleared == -StatementSum(s', b) {
      assert s.accounts[b].cleared == -StatementSum(s, b);
      SumAppend(s.statements, line, OnStatementOf(b));
    }
  }

  /** A charge line settles the hold it names; a payment line leaves all holds. */
  ghost predicate HoldsFollow(holds: seq<Hold>, holds': seq<Hold>, line: StatementLine) {
    if line.hold.Some? then
      && line.hold.value < |holds|
      && holds[line.hold.value].Active()
      && holds' == holds[line.hold.value := holds[line.hold.value].(status := Settled)]
    else holds' == holds
  }

  lemma PostingKeepsLines(s: State, s': State, a: CardAccountId, other: LedgerId, t: Transaction, line: StatementLine)
    requires StatementsOk(s) && CardPosting(s, s', a, other, t, line) && LineOk(s', line)
    requires HoldsFollow(s.holds, s'.holds, line)
    ensures forall l <- s'.statements :: LineOk(s', l)
    ensures forall i, j :: 0 <= i < j < |s'.statements| ==> s'.statements[i].tx != s'.statements[j].tx
  {
    forall l <- s'.statements ensures LineOk(s', l) {
      if l in s.statements {
        assert LineOk(s, l);
      }
    }
    forall j | 0 <= j < |s.statements| ensures s.statements[j].tx < |s.journal| {
      assert LineOk(s, s.statements[j]);
    }
  }

  lemma PostingKeepsCoverage(s: State, s': State, line: StatementLine)
    requires StatementsOk(s) && |s'.journal| == |s.journal| + 1 && s'.journal[..|s.journal|] == s.journal
    requires s'.statements == s.statements + [line] && line.tx == |s.journal|
    ensures forall k: nat :: k < |s'.journal| && OnCard(s'.journal[k]) ==> exists l <- s'.statements :: l.tx == k
  {
    forall k: nat | k < |s'.journal| && OnCard(s'.journal[k]) ensures exists l <- s'.statements :: l.tx == k {
      if k < |s.journal| {
        assert s'.journal[k] == s.journal[k];
        var l :| l in s.statements && l.tx == k;
        assert l in s'.statements;
      } else {
        assert line in s'.statements;
      }
    }
  }

  lemma PostingKeepsHoldLines(s: State, s': State, line: StatementLine)
    requires StatementsOk(s) && s'.statements == s.statements + [line] && HoldsFollow(s.holds, s'.holds, line)
    ensures forall i: nat :: i < |s'.holds| ==>
              Sum(s'.statements, ForHold(i)) == if s'.holds[i].status == Settled then 1 else 0
  {
    forall i: nat | i < |s'.holds|
      ensures Sum(s'.statements, ForHold(i)) == if s'.holds[i].status == Settled then 1 else 0
    {
      SumAppend(s.statements, line, ForHold(i));
    }
  }

  lemma PostingKeepsStatements(s: State, s': State, a: CardAccountId, other: LedgerId, t: Transaction,
                               line: StatementLine)
    requires StatementsOk(s) && CardPosting(s, s', a, other, t, line) && LineOk(s', line)
    requires HoldsFollow(s.holds, s'.holds, line)
    ensures StatementsOk(s')
  {
    hide LineOk, TxOk, HoldsFollow, OnCard;
    PostingKeepsLines(s, s', a, other, t, line);
    PostingKeepsCoverage(s, s', line);
    PostingKeepsStatementSums(s, s', a, other, t, line);
    PostingKeepsHoldLines(s, s', line);
  }

  lemma PostingKeepsValid(s: State, s': State, a: CardAccountId, other: LedgerId, t: Transaction, line: StatementLine)
    requires Valid(s) && CardPosting(s, s', a, other, t, line) && LineOk(s', line)
    requires HoldsFollow(s.holds, s'.holds, line)
    requires line.hold.Some? ==> s.holds[line.hold.value].account == a
    requires Recalculated(s'.holds, a, s'.accounts[a]) == Some(s'.accounts[a])
    ensures Valid(s')
  {
    hide CreditOk, JournalOk, BalancesOk, StatementsOk, LineOk, Recalculated, TxOk;
    if line.hold.Some? {
      ReleaseHold(s, line.hold.value, Settled);
    }
    RebalancedKeepsCredit(s, s', a);
    PostingKeepsJournal(s, s', a, other, t, line);
    PostingKeepsBalances(s, s', a, other, t, line);
    PostingKeepsStatements(s, s', a, other, t, line);
  }

  // ------------------------------------------------ settlement and payment

  /** Whatever raises is rolled back: an operation that fails leaves no trace. */
  lemma FailureChangesNothing(s: State, op: Op)
    ensures Step(s, op).1.Failed? ==> Step(s, op).0 == s
    ensures op.OpSettle? ==> Step(s, op).1.SettlementPosted? || Step(s, op).1.Failed?
    ensures op.OpPay? ==> Step(s, op).1.PaymentPosted? || Step(s, op).0 == s
    ensures op.OpOpen? ==> Step(s, op).1.DepositOpened? || Step(s, op).1.Failed?
  {
    hide PendingTotal, Post, EnsureMirror, EnsureSystem, FindHold, FindKey, Recalculated, Book;
  }

  /** A key that was used for the same card entries already has its statement line,
      so a booking that goes through posts afresh. */
  lemma BookPostsAfresh(s: State, holds: seq<Hold>, ledger: map<LedgerId, LedgerAccount>, a: CardAccountId, key: TxKey,
                        currency: Currency, entries: seq<Entry>, hold: Option<nat>, delta: int)
    requires Valid(s) && a in s.accounts && Mirror(a) in ledger
    requires exists e <- entries :: e.account.Mirror?
    requires Book(s.(holds := holds, ledger := ledger), a, key, currency, entries, hold, delta).Some?
    ensures FindKey(s.journal, key).None?
  {
    var found := FindKey(s.journal, key);
    if found.Some? {
      var t := s.journal[found.value];
      assert multiset(t.entries) == multiset(entries);
      var e :| e in entries && e.account.Mirror?;
      assert e in multiset(entries);
      assert e in t.entries && OnCard(t);
      assert false;
    }
  }

  /** What a booking under a fresh key appends. */
  lemma BookEffect(s: State, a: CardAccountId, key: TxKey, currency: Currency, entries: seq<Entry>,
                   hold: Option<nat>, delta: int)
    requires a in s.accounts && Mirror(a) in s.ledger && FindKey(s.journal, key).None?
    requires Book(s, a, key, currency, entries, hold, delta).Some?
    ensures forall e <- entries :: 0 < e.amount && e.account in s.ledger && s.ledger[e.account].currency == currency
    ensures var (s', tx) := Book(s, a, key, currency, entries, hold, delta).value;
      && var debt := s.accounts[a].(cleared := s.accounts[a].cleared + delta);
      && a in s'.accounts
      && Recalculated(s.holds, a, s'.accounts[a]) == Some(s'.accounts[a])
      && s'.accounts[a] == debt.(available := s'.accounts[a].available)
      && tx == |s.journal|
      && s' == s.(journal := s.journal + [Transaction(key, currency, entries, None)],
                  statements := s.statements + [StatementLine(a, hold, tx, -delta)],
                  accounts := s.accounts[a := s'.accounts[a]],
                  ledger := s.ledger[Mirror(a) := s.ledger[Mirror(a)].(
                    cleared := s'.accounts[a].cleared, available := s'.accounts[a].available)])
  {
    assert Post(s, key, currency, entries) == Appended(|s.journal|);
  }

  /** The state a settlement posts on: mirror and clearing account are there. */
  function Prepared(s: State, a: CardAccountId): State
    requires a in s.accounts
    requires EnsureMirror(s.ledger, a, s.accounts[a]).Some?
    requires EnsureSystem(EnsureMirror(s.ledger, a, s.accounts[a]).value,
                          MerchantClearing(s.accounts[a].currency), s.accounts[a].currency).Some?
  {
    s.(ledger := EnsureSystem(EnsureMirror(s.ledger, a, s.accounts[a]).value,
                              MerchantClearing(s.accounts[a].currency), s.accounts[a].currency).value)
  }

  lemma MirrorKeepsValid(s: State, a: CardAccountId)
    requires Valid(s) && a in s.accounts
    ensures EnsureMirror(s.ledger, a, s.accounts[a]).Some?
    ensures Valid(s.(ledger := EnsureMirror(s.ledger, a, s.accounts[a]).value))
  {
    if Mirror(a) in s.ledger {
      assert BalanceOk(s, Mirror(a));
    }
    EnsureKeepsValid(s, Mirror(a), EnsureMirror(s.ledger, a, s.accounts[a]).value[Mirror(a)]);
  }

  lemma PreparedKeepsValid(s: State, a: CardAccountId)
    requires Valid(s) && a in s.accounts
    ensures EnsureMirror(s.ledger, a, s.accounts[a]).Some?
    ensures EnsureSystem(EnsureMirror(s.ledger, a, s.accounts[a]).value,
                         MerchantClearing(s.accounts[a].currency), s.accounts[a].currency).Some?
    ensures Valid(Prepared(s, a))
  {
    MirrorKeepsValid(s, a);
    var s1 := s.(ledger := EnsureMirror(s.ledger, a, s.accounts[a]).value);
    var c := s.accounts[a].currency;
    if MerchantClearing(c) in s1.ledger {
      assert BalanceOk(s1, MerchantClearing(c));
    } else {
      EnsureKeepsValid(s1, MerchantClearing(c), LedgerAccount(None, c, true, 0, 0, 0));
    }
  }

  /** The booking a settlement makes on its prepared state. */
  function Charged(p: State, i: nat, amount: int): Option<(State, nat)>
    requires i < |p.holds| && p.holds[i].account in p.accounts && Mirror(p.holds[i].account) in p.ledger
  {
    var h := p.holds[i];
    Book(p.(holds := p.holds[i := h.(status := Settled)]), h.account, SettlementKey(h.rrn), h.currency,
         Transfer(Mirror(h.account), MerchantClearing(p.accounts[h.account].currency), amount), Some(i), amount)
  }

  function ChargeTx(p: State, i: nat, amount: int): Transaction
    requires i < |p.holds| && p.holds[i].account in p.accounts
  {
    var h := p.holds[i];
    Transaction(SettlementKey(h.rrn), h.currency,
                Transfer(Mirror(h.account), MerchantClearing(p.accounts[h.account].currency), amount), None)
  }

  lemma ChargeIsFresh(p: State, i: nat, amount: int)
    requires Valid(p) && i < |p.holds| && p.holds[i].account in p.accounts && Mirror(p.holds[i].account) in p.ledger
    requires Charged(p, i, amount).Some?
    ensures FindKey(p.journal, SettlementKey(p.holds[i].rrn)).None?
  {
    var t := ChargeTx(p, i, amount);
    assert t.entries[0] in t.entries;
    BookPostsAfresh(p, p.holds[i := p.holds[i].(status := Settled)], p.ledger, p.holds[i].account,
                    t.key, t.currency, t.entries, Some(i), amount);
  }

  lemma ChargeIsPosting(p: State, i: nat, amount: int)
    requires i < |p.holds| && p.holds[i].Active() && p.holds[i].account in p.accounts && 0 < amount
    requires 0 <= p.accounts[p.holds[i].account].cleared
    requires Mirror(p.holds[i].account) in p.ledger
    requires FindKey(p.journal, SettlementKey(p.holds[i].rrn)).None?
    requires Charged(p, i, amount).Some?
    ensures var a := p.holds[i].account;
      var s' := Charged(p, i, amount).value.0;
      var line := StatementLine(a, Some(i), |p.journal|, -amount);
      && CardPosting(p, s', a, MerchantClearing(p.accounts[a].currency), ChargeTx(p, i, amount), line)
      && LineOk(s', line) && HoldsFollow(p.holds, s'.holds, line)
      && Recalculated(s'.holds, a, s'.accounts[a]) == Some(s'.accounts[a])
      && s'.cards == p.cards
  {
    hide Book, Post, Recalculated, FindKey;
    var t := ChargeTx(p, i, amount);
    assert t.entries[0] in t.entries && t.entries[1] in t.entries;
    BookEffect(p.(holds := p.holds[i := p.holds[i].(status := Settled)]), p.holds[i].account,
               t.key, t.currency, t.entries, Some(i), amount);
  }

  /** Booking the charge of active hold `i` on a valid state keeps it valid. */
  lemma ChargeKeepsValid(p: State, i: nat, amount: int)
    requires Valid(p) && i < |p.holds| && p.holds[i].Active() && 0 < amount
    requires p.holds[i].account in p.accounts && Mirror(p.holds[i].account) in p.ledger
    requires Charged(p, i, amount).Some?
    ensures Valid(Charged(p, i, amount).value.0)
  {
    hide Charged, CardPosting, LineOk, Recalculated, HoldsFollow, StatementsOk, JournalOk, CreditOk;
    var a := p.holds[i].account;
    ChargeIsFresh(p, i, amount);
    ChargeIsPosting(p, i, amount);
    PostingKeepsValid(p, Charged(p, i, amount).value.0, a, MerchantClearing(p.accounts[a].currency),
                      ChargeTx(p, i, amount), StatementLine(a, Some(i), |p.journal|, -amount));
  }

  /** A settlement that goes through charges the active hold of its RRN. */
  lemma SettleIsCharge(s: State, rrn: Rrn, amount: int) returns (i: nat)
    requires Settle(s, rrn, amount).1.SettlementPosted?
    ensures FindHold(s.holds, rrn, true) == Some(i) && 0 < amount
    ensures s.holds[i].account in s.accounts
    ensures var a := s.holds[i].account;
      && EnsureMirror(s.ledger, a, s.accounts[a]).Some?
      && EnsureSystem(EnsureMirror(s.ledger, a, s.accounts[a]).value,
                      MerchantClearing(s.accounts[a].currency), s.accounts[a].currency).Some?
      && Charged(Prepared(s, a), i, amount).Some?
      && Settle(s, rrn, amount).0 == Charged(Prepared(s, a), i, amount).value.0
  {
    i := FindHold(s.holds, rrn, true).value;
  }

  lemma SettleKeepsValid(s: State, rrn: Rrn, amount: int)
    requires Valid(s)
    ensures Valid(Settle(s, rrn, amount).0)
  {
    hide Valid, Settle, Charged;
    var (s', r) := Settle(s, rrn, amount);
    if r.SettlementPosted? {
      var i := SettleIsCharge(s, rrn, amount);
      PreparedKeepsValid(s, s.holds[i].account);
      ChargeKeepsValid(Prepared(s, s.holds[i].account), i, amount);
    } else {
      FailureChangesNothing(s, OpSettle(rrn, amount));
    }
  }

  // ------------------------------------------------------------ bill payment

  function PayTx(request: PaymentRequest, digest: Digest, result: PaymentResult): Transaction {
    Transaction(PaymentKey(digest), request.currency,
                Transfer(Deposit(request.source), Mirror(request.card), request.amount),
                Some(Receipt(request, result)))
  }

  /** What a payment that goes through did to the state with the card's mirror in place. */
  lemma PayIsPosting(s: State, user: User, request: PaymentRequest, key: string, digest: Digest)
    requires Pay(s, user, request, key, digest).1.PaymentPosted?
    ensures request.card in s.accounts && 0 < request.amount
    ensures EnsureMirror(s.ledger, request.card, s.accounts[request.card]).Some?
    ensures FindKey(s.journal, PaymentKey(digest)).None?
    ensures var (s', r) := Pay(s, user, request, key, digest);
      var p := s.(ledger := EnsureMirror(s.ledger, request.card, s.accounts[request.card]).value);
      var line := StatementLine(request.card, None, |s.journal|, request.amount);
      && CardPosting(p, s', request.card, Deposit(request.source), PayTx(request, digest, r.result), line)
      && LineOk(s', line) && s'.holds == s.holds && s'.cards == s.cards
      && Recalculated(s'.holds, request.card, s'.accounts[request.card]) == Some(s'.accounts[request.card])
      && r.result == PaymentResult(|s.journal|, request.amount, s'.ledger[Deposit(request.source)].cleared,
                                   s'.accounts[request.card].cleared, s'.accounts[request.card].available)
  {
    hide Book, Post, Recalculated;
    var PaymentRequest(number, a, amount, currency) := request;
    var p := s.(ledger := EnsureMirror(s.ledger, a, s.accounts[a]).value);
    var source := Deposit(number);
    var payer := p.ledger[source].(cleared := p.ledger[source].cleared - amount);
    var entries := Transfer(source, Mirror(a), amount);
    assert entries[0] in entries && entries[1] in entries;
    BookEffect(p.(ledger := p.ledger[source := payer]), a, PaymentKey(digest), currency, entries, None, -amount);
  }

  lemma PayKeepsValid(s: State, user: User, request: PaymentRequest, key: string, digest: Digest)
    requires Valid(s)
    ensures Valid(Pay(s, user, request, key, digest).0)
  {
    hide Valid, Pay, CardPosting, LineOk, Recalculated;
    var (s', r) := Pay(s, user, request, key, digest);
    if r.PaymentPosted? {
      var a := request.card;
      PayIsPosting(s, user, request, key, digest);
      MirrorKeepsValid(s, a);
      var p := s.(ledger := EnsureMirror(s.ledger, a, s.accounts[a]).value);
      PostingKeepsValid(p, s', a, Deposit(request.source), PayTx(request, digest, r.result),
                        StatementLine(a, None, |s.journal|, request.amount));
    } else {
      FailureChangesNothing(s, OpPay(user, request, key, digest));
    }
  }

  // --------------------------------------------------------- deposit opening

  /** An empty deposit account. */
  lemma NewDepositKeepsValid(s: State, number: nat, row: LedgerAccount)
    requires Valid(s) && Deposit(number) !in s.ledger && row.cleared == 0
    ensures Valid(s.(ledger := s.ledger[Deposit(number) := row]))
  {
    hide HoldsOk, CreditOk, StatementsOk;
    var s' := s.(ledger := s.ledger[Deposit(number) := row]);
    GrowthKeepsJournal(s, s'.ledger);
    UnknownNetZero(s, Deposit(number));
    forall k <- s'.ledger ensures BalanceOk(s', k) {
      if k in s.ledger {
        assert BalanceOk(s, k);
      }
    }
    SameHoldsKeepCredit(s, s');
    SameBooksKeepStatements(s, s');
  }

  /** A deposit is funded from outside through a fresh key. */
  ghost predicate Funded(s: State, s': State, number: nat, amount: nat, t: Transaction) {
    var system, id := ExternalFunding(USD), Deposit(number);
    && 0 < amount <= MAX_MINOR && TxOk(t, s.ledger) && t.entries == Transfer(system, id, amount)
    && s.ledger[id].cleared == 0
    && FindKey(s.journal, t.key).None?
    && s' == s.(journal := s.journal + [t],
                ledger := s.ledger[system := s.ledger[system].(cleared := s.ledger[system].cleared + amount)]
                                  [id := s.ledger[id].(cleared := s.ledger[id].cleared + amount)])
  }

  lemma FundingKeepsBalances(s: State, s': State, number: nat, amount: nat, t: Transaction)
    requires BalancesOk(s) && Funded(s, s', number, amount, t)
    ensures BalancesOk(s')
  {
    forall id <- s'.ledger ensures BalanceOk(s', id) {
      NetAppend(s.journal, t, id);
      TransferNet(t.key, t.currency, t.entries[0].account, t.entries[1].account, amount, t.receipt, id);
      assert BalanceOk(s, id);
    }
  }

  lemma FundingKeepsStatements(s: State, s': State, number: nat, amount: nat, t: Transaction)
    requires StatementsOk(s) && Funded(s, s', number, amount, t)
    ensures StatementsOk(s')
  {
    forall l <- s'.statements ensures LineOk(s', l) {
      assert LineOk(s, l);
    }
    forall b <- s'.accounts ensures s'.accounts[b].cleared == -StatementSum(s', b) {
      assert s.accounts[b].cleared == -StatementSum(s, b);
    }
  }

  lemma FundingKeepsValid(s: State, s': State, number: nat, amount: nat, t: Transaction)
    requires Valid(s) && Funded(s, s', number, amount, t)
    ensures Valid(s')
  {
    hide HoldsOk, CreditOk, BalancesOk, StatementsOk;
    GrowthKeepsJournal(s, s'.ledger);
    forall u <- s'.journal ensures TxOk(u, s'.ledger) {
      if u in s.journal {
        assert TxOk(u, s'.ledger);
      }
    }
    SameHoldsKeepCredit(s, s');
    FundingKeepsBalances(s, s', number, amount, t);
    FundingKeepsStatements(s, s', number, amount, t);
  }

  /** No earlier transaction can name a deposit that is only now being opened. */
  lemma OpenPostsAfresh(s: State, ledger: map<LedgerId, LedgerAccount>, number: nat, amount: nat, key: TxKey)
    requires JournalOk(s) && Deposit(number) !in s.ledger
    ensures !Post(s.(ledger := ledger), key, USD,
                  Transfer(ExternalFunding(USD), Deposit(number), amount)).AlreadyPosted?
  {
    var entries := Transfer(ExternalFunding(USD), Deposit(number), amount);
    var found := FindKey(s.journal, key);
    if found.Some? {
      var t := s.journal[found.value];
      assert TxOk(t, s.ledger);
      assert entries[1] in multiset(entries);
      assert entries[1] !in multiset(t.entries);
    }
  }

  /** The state a funded opening posts on: an empty deposit beside the funding account. */
  function Opening(s: State, user: User, number: nat): State {
    var ledger := s.ledger[Deposit(number) := LedgerAccount(Some(user), USD, true, 0, 0, 0)];
    var system := ExternalFunding(USD);
    s.(ledger := if system in ledger then ledger else ledger[system := LedgerAccount(None, USD, true, 0, 0, 0)])
  }

  lemma OpeningKeepsValid(s: State, user: User, number: nat)
    requires Valid(s) && Deposit(number) !in s.ledger
    ensures Valid(Opening(s, user, number))
  {
    var s1 := s.(ledger := s.ledger[Deposit(number) := LedgerAccount(Some(user), USD, true, 0, 0, 0)]);
    NewDepositKeepsValid(s, number, s1.ledger[Deposit(number)]);
    if ExternalFunding(USD) !in s1.ledger {
      EnsureKeepsValid(s1, ExternalFunding(USD), LedgerAccount(None, USD, true, 0, 0, 0));
    }
  }

  /** Entries are appended only under a fresh key, to accounts of their currency. */
  lemma AppendedIsFresh(s: State, key: TxKey, currency: Currency, entries: seq<Entry>)
    requires Post(s, key, currency, entries).Appended?
    ensures FindKey(s.journal, key).None?
    ensures forall e <- entries :: 0 < e.amount && e.account in s.ledger && s.ledger[e.account].currency == currency
  {
  }

  lemma OpenPosts(s: State, user: User, number: nat, initial: nat, key: Option<string>, uuid: Uuid)
    requires JournalOk(s) && 0 < initial && Open(s, user, number, initial, key, uuid).1.DepositOpened?
    ensures Deposit(number) !in s.ledger && initial <= MAX_MINOR
    ensures var ledger := EnsureSystem(s.ledger[Deposit(number) := LedgerAccount(Some(user), USD, true, initial, 0, 0)],
                                       ExternalFunding(USD), USD);
      ledger.Some? && Post(s.(ledger := ledger.value), FundingKey(key, uuid), USD,
                           Transfer(ExternalFunding(USD), Deposit(number), initial)).Appended?
  {
    hide JournalOk, Post;
    var ledger := EnsureSystem(s.ledger[Deposit(number) := LedgerAccount(Some(user), USD, true, initial, 0, 0)],
                               ExternalFunding(USD), USD);
    OpenPostsAfresh(s, ledger.value, number, initial, FundingKey(key, uuid));
  }

  /** What a funded opening does to that state. */
  lemma OpenIsFunding(s: State, user: User, number: nat, initial: nat, key: Option<string>, uuid: Uuid)
    requires JournalOk(s) && 0 < initial && Open(s, user, number, initial, key, uuid).1.DepositOpened?
    ensures Deposit(number) !in s.ledger
    ensures Funded(Opening(s, user, number), Open(s, user, number, initial, key, uuid).0, number, initial,
                   Transaction(FundingKey(key, uuid), USD, Transfer(ExternalFunding(USD), Deposit(number), initial),
                               None))
  {
    hide JournalOk, Post, FindKey;
    OpenPosts(s, user, number, initial, key, uuid);
    var s' := Open(s, user, number, initial, key, uuid).0;
    var system, id := ExternalFunding(USD), Deposit(number);
    var row := LedgerAccount(Some(user), USD, true, initial, 0, 0);
    var ledger := EnsureSystem(s.ledger[id := row], system, USD).value;
    var entries := Transfer(system, id, initial);
    assert entries[0] in entries && entries[1] in entries;
    AppendedIsFresh(s.(ledger := ledger), FundingKey(key, uuid), USD, entries);
    var p := Opening(s, user, number);
    assert s'.ledger == p.ledger[system := p.ledger[system].(cleared := p.ledger[system].cleared + initial)]
                                [id := p.ledger[id].(cleared := p.ledger[id].cleared + initial)];
  }

  lemma OpenKeepsValid(s: State, user: User, number: nat, initial: nat, key: Option<string>, uuid: Uuid)
    requires Valid(s)
    ensures Valid(Open(s, user, number, initial, key, uuid).0)
  {
    hide HoldsOk, CreditOk, JournalOk, BalancesOk, StatementsOk, Opening, Funded, Post, EnsureSystem;
    var (s', r) := Open(s, user, number, initial, key, uuid);
    if r.DepositOpened? {
      if initial == 0 {
        NewDepositKeepsValid(s, number, s'.ledger[Deposit(number)]);
      } else {
        OpeningKeepsValid(s, user, number);
        OpenIsFunding(s, user, number, initial, key, uuid);
        FundingKeepsValid(Opening(s, user, number), s', number, initial,
                          Transaction(FundingKey(key, uuid), USD,
                                      Transfer(ExternalFunding(USD), Deposit(number), initial), None));
      }
    }
  }

  // ---------------------------------------------------------------- every run

  lemma StepKeepsValid(s: State, op: Op)
    requires Valid(s)
    ensures Valid(Step(s, op).0)
  {
    hide Valid, Authorize, Settle, Reverse, Pay, Open;
    match op
    case OpAuthorize(token, rrn, amount, flagged) => AuthorizeKeepsValid(s, token, rrn, amount, flagged);
    case OpSettle(rrn, amount) => SettleKeepsValid(s, rrn, amount);
    case OpReverse(rrn) => ReverseKeepsValid(s, rrn);
    case OpPay(user, request, key, digest) => PayKeepsValid(s, user, request, key, digest);
    case OpOpen(user, number, initial, key, uuid) => OpenKeepsValid(s, user, number, initial, key, uuid);
  }

  /** Card accounts as they are issued: no debt, all of the limit available; nothing else recorded. */
  ghost predicate Genesis(s: State) {
    && s.holds == [] && s.statements == [] && s.journal == [] && s.ledger == map[]
    && forall a <- s.accounts ::
         s.accounts[a].cleared == 0 && 0 <= s.accounts[a].limit == s.accounts[a].available
  }

  lemma GenesisValid(s: State)
    requires Genesis(s)
    ensures Valid(s)
  {
  }

  /** What some run from newly issued card accounts leads to. */
  ghost predicate Reachable(s: State) {
    exists genesis, ops :: Genesis(genesis) && s == Run(genesis, ops)
  }

  /** `s'` is some later state. */
  ghost predicate LeadsTo(s: State, s': State) {
    exists ops :: s' == Run(s, ops)
  }

  lemma ReachableValid(s: State)
    requires Reachable(s)
    ensures Valid(s)
  {
    hide Valid, Genesis, Run;
    var genesis, ops :| Genesis(genesis) && s == Run(genesis, ops);
    GenesisValid(genesis);
    RunKeepsValid(genesis, ops);
  }

  lemma {:induction false} RunKeepsValid(s: State, ops: seq<Op>)
    requires Valid(s)
    ensures Valid(Run(s, ops))
  {
    hide Valid, Step;
    if ops != [] {
      RunKeepsValid(s, ops[..|ops| - 1]);
      StepKeepsValid(Run(s, ops[..|ops| - 1]), ops[|ops| - 1]);
    }
  }
}
