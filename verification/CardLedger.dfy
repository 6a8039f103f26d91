/** The operations as the services perform them: rows of the session are changed one
    after the other, and only a commit makes them last; a failure rolls them back. */
module CardLedger {
  import opened Options
  import opened Sums
  import opened Text
  import opened CardState
  import opened CardInvariants
  import opened CardPreservation
  import opened CardTheorems

  /** A booking row by row: the debt and its mirror first, the cached credit after it. */
  lemma BookInSteps(s: State, a: CardAccountId, key: TxKey, currency: Currency, entries: seq<Entry>,
                    hold: Option<nat>, delta: int)
    requires a in s.accounts && Mirror(a) in s.ledger
    ensures var posting := Post(s, key, currency, entries);
      var debt := s.accounts[a].(cleared := s.accounts[a].cleared + delta);
      var after := Recalculated(s.holds, a, debt);
      var booked := Book(s, a, key, currency, entries, hold, delta);
      && (booked.Some? <==> !posting.Refused? && !(exists line <- s.statements :: line.tx == posting.tx) && after.Some?)
      && (booked.Some? ==>
            && var (s', tx) := booked.value;
            && var ledger := s.ledger[Mirror(a) := s.ledger[Mirror(a)].(cleared := debt.cleared)];
            && tx == posting.tx < |s'.journal|
            && s' == State(
                 s.cards, s.accounts[a := debt][a := after.value], s.holds,
                 s.statements + [StatementLine(a, hold, tx, -delta)],
                 if posting.Appended? then s.journal + [Transaction(key, currency, entries, None)] else s.journal,
                 ledger[Mirror(a) := ledger[Mirror(a)].(available := after.value.available)]))
  {
    hide Post, PendingTotal;
    var debt := s.accounts[a].(cleared := s.accounts[a].cleared + delta);
    var after := Recalculated(s.holds, a, debt);
    var ledger := s.ledger[Mirror(a) := s.ledger[Mirror(a)].(cleared := debt.cleared)];
    if after.Some? {
      assert s.accounts[a := debt][a := after.value] == s.accounts[a := after.value];
      assert ledger[Mirror(a) := ledger[Mirror(a)].(available := after.value.available)]
          == s.ledger[Mirror(a) := s.ledger[Mirror(a)].(cleared := debt.cleared, available := after.value.available)];
    }
  }

  /** At least two entries, all of positive amount, with equal totals on both sides. */
  method Balanced(entries: seq<Entry>) returns (ok: bool)
    ensures ok <==> && |entries| >= 2 && (forall e <- entries :: 0 < e.amount)
                    && Sum(entries, Directed(Debit)) == Sum(entries, Directed(Credit))
  {
    var debits, credits := 0, 0;
    for i := 0 to |entries|
      invariant forall e <- entries[..i] :: 0 < e.amount
      invariant debits == Sum(entries[..i], Directed(Debit)) && credits == Sum(entries[..i], Directed(Credit))
    {
      var e := entries[i];
      if e.amount <= 0 {
        assert e in entries;
        return false;
      }
      SumStep(entries, i, Directed(Debit));
      SumStep(entries, i, Directed(Credit));
      if e.direction == Debit {
        debits := debits + e.amount;
      } else {
        credits := credits + e.amount;
      }
    }
    assert entries[..|entries|] == entries;
    return |entries| >= 2 && debits == credits;
  }

  /** How often each entry occurs. */
  ghost predicate Counts(entries: seq<Entry>, counts: map<Entry, nat>) {
    forall e :: (e in counts <==> e in entries) && (e in counts ==> counts[e] == multiset(entries)[e])
  }

  method Counted(entries: seq<Entry>) returns (counts: map<Entry, nat>)
    ensures Counts(entries, counts)
  {
    counts := map[];
    for i := 0 to |entries|
      invariant Counts(entries[..i], counts)
    {
      assert entries[..i + 1] == entries[..i] + [entries[i]];
      var e := entries[i];
      counts := counts[e := if e in counts then counts[e] + 1 else 1];
    }
    assert entries[..|entries|] == entries;
  }

  /** Two lists are permutations of each other exactly when they are counted alike. */
  lemma SameCounts(es: seq<Entry>, counts: map<Entry, nat>, es': seq<Entry>, counts': map<Entry, nat>)
    requires Counts(es, counts) && Counts(es', counts')
    ensures counts == counts' <==> multiset(es) == multiset(es')
  {
    if counts == counts' {
      forall e ensures multiset(es)[e] == multiset(es')[e] {
        assert e in multiset(es) <==> e in es;
        assert e in multiset(es') <==> e in es';
      }
    } else if multiset(es) == multiset(es') {
      forall e ensures e in counts <==> e in counts' {
        assert e in multiset(es) <==> e in es;
        assert e in multiset(es') <==> e in es';
      }
    }
  }

  class Session {
    var cards: map<string, IssuedCard>
    var accounts: map<CardAccountId, CardAccount>
    var holds: seq<Hold>
    var statements: seq<StatementLine>
    var journal: seq<Transaction>
    var ledger: map<LedgerId, LedgerAccount>

    /** The last committed state. */
    var committed: State

    function Store(): State
      reads this
    {
      State(cards, accounts, holds, statements, journal, ledger)
    }

    /** Nothing is pending: the rows in the session are the committed ones. */
    ghost predicate Clean()
      reads this
    {
      Store() == committed
    }

    constructor (genesis: State)
      ensures Clean() && Store() == genesis
    {
      cards, accounts, holds := genesis.cards, genesis.accounts, genesis.holds;
      statements, journal, ledger := genesis.statements, genesis.journal, genesis.ledger;
      committed := genesis;
    }

    method Commit()
      modifies this`committed
      ensures committed == Store()
    {
      committed := Store();
    }

    method Rollback()
      modifies this`cards, this`accounts, this`holds, this`statements, this`journal, this`ledger
      ensures Store() == committed
    {
      cards, accounts, holds := committed.cards, committed.accounts, committed.holds;
      statements, journal, ledger := committed.statements, committed.journal, committed.ledger;
    }

    /** Adds up the active holds of an account in its currency; fails on the first hold
        that is in another currency, negative or no `Money`. */
    method PendingAuthTotal(a: CardAccountId) returns (r: Option<int>)
      ensures r == if a in accounts then PendingTotal(holds, a, accounts[a].currency) else None
    {
      if a !in accounts {
        return None;
      }
      var currency := accounts[a].currency;
      var total := 0;
      for i := 0 to |holds|
        invariant total == Held(holds[..i], a)
        invariant forall h <- holds[..i] :: Countable(h, a, currency)
      {
        SumStep(holds, i, HeldBy(a));
        var h := holds[i];
        if h.account == a && h.Active() {
          if !IsMoney(h.amount) || h.currency != currency || h.amount < 0 {
            assert !Countable(h, a, currency);
            return None;
          }
          total := total + h.amount;
        }
      }
      assert holds[..|holds|] == holds;
      return if IsMoney(total) then Some(total) else None;
    }

    method RecalculateAvailableCredit(a: CardAccountId) returns (ok: bool)
      requires a in accounts
      modifies this`accounts
      ensures ok <==> Recalculated(holds, a, old(accounts)[a]).Some?
      ensures accounts == if ok then old(accounts)[a := Recalculated(holds, a, old(accounts)[a]).value]
                          else old(accounts)
    {
      var pending := PendingAuthTotal(a);
      ok := pending.Some?;
      if ok {
        var available := accounts[a].limit - accounts[a].cleared - pending.value;
        available := Max(0, Min(accounts[a].limit, available));
        accounts := accounts[a := accounts[a].(available := available)];
      }
    }

    method ProcessAuthorization(token: string, rrn: Rrn, amount: int, flagged: bool) returns (r: Response)
      requires Clean()
      modifies this
      ensures Clean()
      ensures (Store(), r) == Authorize(old(Store()), token, rrn, amount, flagged)
    {
      var existing := FindHold(holds, rrn, false);
      if existing.Some? {
        return AuthReplayed(holds[existing.value].status);
      }
      if token !in cards {
        return AuthDeclined(CardNotFound);
      }
      if !cards[token].usable {
        return AuthDeclined(CardBlocked);
      }
      var a := cards[token].account;
      if a !in accounts {
        return AuthDeclined(AccountNotFound);
      }
      if !accounts[a].active {
        return AuthDeclined(AccountFrozen);
      }
      if amount > accounts[a].available {
        holds := holds + [Hold(a, amount, USD, Declined, rrn)];
        Commit();
        return AuthDeclined(InsufficientFunds);
      }
      var status := if flagged then Flagged else Pending;
      holds := holds + [Hold(a, amount, USD, status, rrn)];
      var ok := RecalculateAvailableCredit(a);
      if !ok {
        Rollback();
        return Failed;
      }
      Commit();
      return AuthApproved(status);
    }

    method ProcessReversal(rrn: Rrn) returns (r: Response)
      requires Clean()
      modifies this
      ensures Clean()
      ensures (Store(), r) == Reverse(old(Store()), rrn)
    {
      var found := FindHold(holds, rrn, true);
      if found.None? {
        return Failed;
      }
      var i := found.value;
      var a := holds[i].account;
      holds := holds[i := holds[i].(status := Reversed)];
      if a !in accounts {
        Rollback();
        return Failed;
      }
      var ok := RecalculateAvailableCredit(a);
      if !ok {
        Rollback();
        return Failed;
      }
      Commit();
      return HoldReversed(accounts[a].available);
    }

    /** The row of the journal under a key. */
    method FindTransaction(key: TxKey) returns (r: Option<nat>)
      ensures r == FindKey(journal, key)
    {
      assert journal[..|journal|] == journal;
      for i := |journal| downto 0
        invariant FindKey(journal[..i], key) == FindKey(journal, key)
      {
        assert journal[..i + 1][..i] == journal[..i];
        if journal[i].key == key {
          return Some(i);
        }
      }
      return None;
    }

    /** The entries name known accounts of the currency. */
    method Denominated(currency: Currency, entries: seq<Entry>) returns (ok: bool)
      ensures ok <==> forall e <- entries :: e.account in ledger && ledger[e.account].currency == currency
    {
      for i := 0 to |entries|
        invariant forall e <- entries[..i] :: e.account in ledger && ledger[e.account].currency == currency
      {
        if entries[i].account !in ledger || ledger[entries[i].account].currency != currency {
          assert entries[i] in entries;
          return false;
        }
      }
      return true;
    }

    /** Appends the entries under a fresh key, or finds the same ones already there. */
    method PostFinancialTransaction(key: TxKey, currency: Currency, entries: seq<Entry>) returns (posting: Posting)
      modifies this`journal
      ensures posting == Post(old(Store()), key, currency, entries)
      ensures journal == if posting.Appended? then old(journal) + [Transaction(key, currency, entries, None)]
                         else old(journal)
    {
      hide FindKey, Counts;
      var balanced := Balanced(entries);
      if !balanced {
        return Refused;
      }
      var existing := FindTransaction(key);
      if existing.Some? {
        var t := journal[existing.value];
        var requested := Counted(entries);
        var recorded := Counted(t.entries);
        SameCounts(entries, requested, t.entries, recorded);
        return if t.currency == currency && requested == recorded then AlreadyPosted(existing.value) else Refused;
      }
      var denominated := Denominated(currency, entries);
      if !denominated || |key| > KEY_WIDTH {
        return Refused;
      }
      journal := journal + [Transaction(key, currency, entries, None)];
      return Appended(|journal| - 1);
    }

    /** Post, adjust the debt, bring the mirror in line and add the statement line; the
        flush fails when a line already stands for the transaction. Leaves the session
        to be rolled back when it fails. */
    method BookOnCard(a: CardAccountId, key: TxKey, currency: Currency, entries: seq<Entry>,
                      hold: Option<nat>, delta: int) returns (tx: Option<nat>)
      requires a in accounts && Mirror(a) in ledger
      modifies this`accounts, this`statements, this`journal, this`ledger
      ensures var booked := Book(old(Store()), a, key, currency, entries, hold, delta);
        && (tx.Some? <==> booked.Some?)
        && (tx.Some? ==> (Store(), tx.value) == booked.value)
      ensures tx.Some? ==> a in accounts && tx.value < |journal| && ledger.Keys == old(ledger.Keys)
      ensures forall id <- old(ledger) :: id != Mirror(a) ==> id in ledger && ledger[id] == old(ledger)[id]
    {
      hide Book, Post, Recalculated;
      BookInSteps(Store(), a, key, currency, entries, hold, delta);
      var posting := PostFinancialTransaction(key, currency, entries);
      if posting.Refused? {
        return None;
      }
      var duplicate := exists line <- statements :: line.tx == posting.tx;
      statements := statements + [StatementLine(a, hold, posting.tx, -delta)];
      accounts := accounts[a := accounts[a].(cleared := accounts[a].cleared + delta)];
      ledger := ledger[Mirror(a) := ledger[Mirror(a)].(cleared := accounts[a].cleared)];
      if duplicate {
        return None;
      }
      var ok := RecalculateAvailableCredit(a);
      if !ok {
        return None;
      }
      ledger := ledger[Mirror(a) := ledger[Mirror(a)].(available := accounts[a].available)];
      return Some(posting.tx);
    }

    method ProcessSettlement(rrn: Rrn, amount: int) returns (r: Response)
      requires Clean()
      modifies this
      ensures Clean()
      ensures (Store(), r) == Settle(old(Store()), rrn, amount)
    {
      hide Book;
      if amount <= 0 {
        return Failed;
      }
      var found := FindHold(holds, rrn, true);
      if found.None? {
        return Failed;
      }
      var i := found.value;
      var a := holds[i].account;
      var currency := holds[i].currency;
      holds := holds[i := holds[i].(status := Settled)];
      if a !in accounts {
        Rollback();
        return Failed;
      }
      var mirrored := EnsureMirror(ledger, a, accounts[a]);
      if mirrored.None? {
        Rollback();
        return Failed;
      }
      ledger := mirrored.value;
      var clearing := MerchantClearing(accounts[a].currency);
      var cleared := EnsureSystem(ledger, clearing, accounts[a].currency);
      if cleared.None? || !IsMoney(amount) {
        Rollback();
        return Failed;
      }
      ledger := cleared.value;
      var tx := BookOnCard(a, SettlementKey(rrn), currency, Transfer(Mirror(a), clearing, amount), Some(i), amount);
      if tx.None? {
        Rollback();
        return Failed;
      }
      Commit();
      return SettlementPosted(accounts[a].cleared, accounts[a].available);
    }

    method ExecuteBillPayment(user: User, request: PaymentRequest, key: string, digest: Digest) returns (r: Response)
      requires Clean()
      modifies this
      ensures Clean()
      ensures (Store(), r) == Pay(old(Store()), user, request, key, digest)
    {
      hide Book, PendingTotal;
      var PaymentRequest(number, a, amount, currency) := request;
      if amount <= 0 || !IsMoney(amount) || IsBlank(key) || |key| > 128 {
        return Failed;
      }
      var durable := PaymentKey(digest);
      var previous := Replay(journal, durable, request);
      if previous.Some? {
        return previous.value;
      }
      var source := Deposit(number);
      if source !in ledger || ledger[source].owner != Some(user) || !ledger[source].active {
        return Failed;
      }
      if a !in accounts || accounts[a].owner != user || !accounts[a].active {
        return Failed;
      }
      if ledger[source].currency != currency || accounts[a].currency != currency {
        return Failed;
      }
      if ledger[source].cleared < amount || accounts[a].cleared < amount {
        return Failed;
      }
      var mirrored := EnsureMirror(ledger, a, accounts[a]);
      if mirrored.None? {
        return Failed;
      }
      ledger := mirrored.value;
      ledger := ledger[source := ledger[source].(cleared := ledger[source].cleared - amount)];
      var tx := BookOnCard(a, durable, currency, Transfer(source, Mirror(a), amount), None, -amount);
      if tx.None? {
        Rollback();
        return Failed;
      }
      if !IsMoney(ledger[source].cleared) || !IsMoney(accounts[a].cleared) || !IsMoney(accounts[a].available) {
        Rollback();
        return Failed;
      }
      var result := PaymentResult(tx.value, amount, ledger[source].cleared, accounts[a].cleared, accounts[a].available);
      journal := journal[tx.value := journal[tx.value].(receipt := Some(Receipt(request, result)))];
      Commit();
      return PaymentPosted(result);
    }

    method CreateDepositAccount(user: User, number: nat, initial: nat, key: Option<string>, uuid: Uuid)
      returns (r: Response)
      requires Clean()
      modifies this
      ensures Clean()
      ensures (Store(), r) == Open(old(Store()), user, number, initial, key, uuid)
    {
      hide Post;
      var id := Deposit(number);
      if id in ledger {
        return Failed;
      }
      ledger := ledger[id := LedgerAccount(Some(user), USD, true, initial, 0, 0)];
      if initial > 0 {
        var system := ExternalFunding(USD);
        var ensured := EnsureSystem(ledger, system, USD);
        if ensured.None? || !IsMoney(initial) {
          Rollback();
          return Failed;
        }
        ledger := ensured.value;
        var posting := PostFinancialTransaction(FundingKey(key, uuid), USD, Transfer(system, id, initial));
        if posting.Refused? {
          Rollback();
          return Failed;
        }
        ledger := ledger[system := ledger[system].(cleared := ledger[system].cleared + initial)];
      }
      Commit();
      return DepositOpened(number);
    }
  }

  /** The operations performed one after the other on a session leave what `Run` computes,
      and so every theorem about runs holds of them. */
  method Perform(session: Session, ops: seq<Op>)
    requires session.Clean()
    modifies session
    ensures session.Clean()
    ensures session.Store() == Run(old(session.Store()), ops)
    ensures Valid(old(session.Store())) ==> Valid(session.Store())
  {
    hide Valid, Authorize, Settle, Reverse, Pay, Open;
    ghost var before := session.Store();
    for n := 0 to |ops|
      invariant session.Clean()
      invariant session.Store() == Run(before, ops[..n])
    {
      var r;
      match ops[n] {
        case OpAuthorize(token, rrn, amount, flagged) => r := session.ProcessAuthorization(token, rrn, amount, flagged);
        case OpSettle(rrn, amount) => r := session.ProcessSettlement(rrn, amount);
        case OpReverse(rrn) => r := session.ProcessReversal(rrn);
        case OpPay(user, request, key, digest) => r := session.ExecuteBillPayment(user, request, key, digest);
        case OpOpen(user, number, initial, key, uuid) =>
          r := session.CreateDepositAccount(user, number, initial, key, uuid);
      }
      assert ops[..n + 1][..n] == ops[..n];
    }
    assert ops[..|ops|] == ops;
    if Valid(before) {
      RunKeepsValid(before, ops);
    }
  }
}
