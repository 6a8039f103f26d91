/** The books of a reachable state: what the reconciliation report finds in them,
    what double entry conserves, and which card accounts can never be used. */
module CardReconciliation {
  import opened Options
  import opened Sums
  import opened CardState
  import opened CardInvariants
  import opened CardPreservation
  import opened CardTheorems

  // ------------------------------------------------------------------ report

  /** What the report computes for an account from its entries: receivables count
      debits as positive, all other accounts credits. */
  function JournalMinor(journal: seq<Transaction>, id: LedgerId): int {
    if id.Mirror? then -NetCredit(journal, id) else NetCredit(journal, id)
  }

  /** The entries of one transaction whose account is unknown, by their places. */
  function Orphans(entries: seq<Entry>, accounts: set<LedgerId>): set<nat> {
    set i: nat | i < |entries| && entries[i].account !in accounts
  }

  /** The report's pass over the entries of one transaction. */
  method AddEntries(entries: seq<Entry>, accounts: set<LedgerId>, before: map<LedgerId, int>)
    returns (balances: map<LedgerId, int>, orphans: set<nat>)
    requires before.Keys == accounts
    ensures balances.Keys == accounts
    ensures forall id <- accounts ::
              balances[id] == before[id] + (if id.Mirror? then -Sum(entries, SignedFor(id))
                                            else Sum(entries, SignedFor(id)))
    ensures orphans == Orphans(entries, accounts)
  {
    balances, orphans := before, {};
    for i := 0 to |entries|
      invariant balances.Keys == accounts
      invariant forall id <- accounts ::
                  balances[id] == before[id] + (if id.Mirror? then -Sum(entries[..i], SignedFor(id))
                                                else Sum(entries[..i], SignedFor(id)))
      invariant forall j: nat :: j in orphans <==> j < i && entries[j].account !in accounts
    {
      var e := entries[i];
      forall id ensures Sum(entries[..i + 1], SignedFor(id)) == Sum(entries[..i], SignedFor(id)) + SignedFor(id)(e) {
        SumStep(entries, i, SignedFor(id));
      }
      if e.account !in accounts {
        orphans := orphans + {i};
      } else {
        var credited := if e.direction == Credit then e.amount else -e.amount;
        balances := balances[e.account := balances[e.account] + if e.account.Mirror? then -credited else credited];
      }
    }
    assert entries[..|entries|] == entries;
  }

  /** The report's pass over the journal; an entry is named by the places of its
      transaction and its own in it. */
  method AccumulateBalances(journal: seq<Transaction>, accounts: set<LedgerId>)
    returns (balances: map<LedgerId, int>, orphans: set<(nat, nat)>)
    ensures balances.Keys == accounts
    ensures forall id <- accounts :: balances[id] == JournalMinor(journal, id)
    ensures forall k: nat, i: nat :: (k, i) in orphans <==> k < |journal| && i in Orphans(journal[k].entries, accounts)
  {
    hide Orphans;
    balances := map id | id in accounts :: 0;
    orphans := {};
    for k := 0 to |journal|
      invariant balances.Keys == accounts
      invariant forall id <- accounts :: balances[id] == JournalMinor(journal[..k], id)
      invariant forall j: nat, i: nat :: (j, i) in orphans <==> j < k && i in Orphans(journal[j].entries, accounts)
    {
      var orphaned;
      balances, orphaned := AddEntries(journal[k].entries, accounts, balances);
      orphans := orphans + set i <- orphaned :: (k as nat, i);
      forall id
        ensures NetCredit(journal[..k + 1], id) == NetCredit(journal[..k], id) + Sum(journal[k].entries, SignedFor(id))
      {
        SumStep(journal, k, TxNet(id));
      }
    }
    assert journal[..|journal|] == journal;
  }

  /** The sections of the report; a transaction is named by its place in the journal. */
  datatype Report = Report(
    mirrorConflicts: set<LedgerId>, mixed: set<nat>, unresolved: set<nat>, inferred: map<nat, Currency>,
    headerConflicts: set<nat>, orphans: set<(nat, nat)>, unbalanced: set<nat>, differences: set<LedgerId>)

  function EntryCurrencies(t: Transaction, ledger: map<LedgerId, LedgerAccount>): set<Currency> {
    set e | e in t.entries && e.account in ledger :: ledger[e.account].currency
  }

  function Signed(): Entry -> int {
    (e: Entry) => if e.direction == Credit then e.amount else -e.amount
  }

  predicate MirrorConflict(s: State, id: LedgerId)
    requires id in s.ledger
  {
    && id.Mirror?
    && (id.card in s.accounts ==> s.accounts[id.card].currency != s.ledger[id].currency)
  }

  /** What each section of the report says of the books. */
  ghost predicate Reports(s: State, r: Report) {
    && (forall id :: id in r.mirrorConflicts <==> id in s.ledger && MirrorConflict(s, id))
    && (forall id :: id in r.differences <==> id in s.ledger && s.ledger[id].cleared != JournalMinor(s.journal, id))
    && (forall k: nat, i: nat :: (k, i) in r.orphans <==>
          k < |s.journal| && i in Orphans(s.journal[k].entries, s.ledger.Keys))
    && ReportsTransactions(s, r, |s.journal|)
  }

  /** The sections on transactions, as far as the first `n` of them go. */
  ghost predicate ReportsTransactions(s: State, r: Report, n: nat)
    requires n <= |s.journal|
  {
    && (forall k: nat :: n <= k ==> !Listed(r, k))
    && (forall k: nat :: k < n ==> ReportsOne(s.journal[k], s.ledger, k, r))
  }

  predicate Listed(r: Report, k: nat) {
    k in r.mixed || k in r.unresolved || k in r.inferred || k in r.headerConflicts || k in r.unbalanced
  }

  predicate ReportsOne(t: Transaction, ledger: map<LedgerId, LedgerAccount>, k: nat, r: Report) {
    var currencies := EntryCurrencies(t, ledger);
    && (k in r.mixed <==> 1 < |currencies|)
    && (k in r.unresolved <==> currencies == {})
    && (k in r.inferred <==> |currencies| == 1)
    && (k in r.inferred ==> currencies == {r.inferred[k]})
    && (k in r.headerConflicts <==> k in r.inferred && r.inferred[k] != t.currency)
    && (k in r.unbalanced <==> Sum(t.entries, Signed()) != 0)
  }

  /** `r` without what it says of transaction `k`. */
  function Without(r: Report, k: nat): Report {
    r.(mixed := r.mixed - {k}, unresolved := r.unresolved - {k}, inferred := r.inferred - {k},
       headerConflicts := r.headerConflicts - {k}, unbalanced := r.unbalanced - {k})
  }

  lemma OthersKeep(t: Transaction, ledger: map<LedgerId, LedgerAccount>, j: nat, r: Report, k: nat)
    requires j != k
    ensures ReportsOne(t, ledger, j, Without(r, k)) <==> ReportsOne(t, ledger, j, r)
    ensures Listed(Without(r, k), j) <==> Listed(r, j)
  {
    hide EntryCurrencies, Sum;
    assert j in r.inferred ==> (r.inferred - {k})[j] == r.inferred[j];
  }

  lemma OnlyOne(currencies: set<Currency>, c: Currency)
    requires |currencies| == 1 && c in currencies
    ensures currencies == {c}
  {
    assert |currencies - {c}| == 0;
  }

  /** The report's look at one transaction. */
  method AddTransaction(t: Transaction, ledger: map<LedgerId, LedgerAccount>, k: nat, before: Report)
    returns (r: Report)
    requires !Listed(before, k)
    ensures ReportsOne(t, ledger, k, r) && Without(r, k) == before
  {
    hide EntryCurrencies, Sum;
    r := before;
    var currencies := EntryCurrencies(t, ledger);
    if |currencies| > 1 {
      r := r.(mixed := r.mixed + {k});
    } else if |currencies| != 1 {
      r := r.(unresolved := r.unresolved + {k});
    } else {
      var c :| c in currencies;
      OnlyOne(currencies, c);
      r := r.(inferred := r.inferred[k := c]);
      if t.currency != c {
        r := r.(headerConflicts := r.headerConflicts + {k});
      }
    }
    if Sum(t.entries, Signed()) != 0 {
      r := r.(unbalanced := r.unbalanced + {k});
    }
  }

  method ReconcileMoney(s: State) returns (r: Report)
    ensures Reports(s, r)
  {
    hide Orphans, JournalMinor, MirrorConflict, ReportsOne, Listed;
    var balances, orphans := AccumulateBalances(s.journal, s.ledger.Keys);
    var mirrorConflicts := set id | id in s.ledger && MirrorConflict(s, id);
    var differences := set id | id in s.ledger && s.ledger[id].cleared != balances[id];
    r := Report(mirrorConflicts, {}, {}, map[], {}, orphans, {}, differences);
    forall k: nat ensures !Listed(r, k) {
      NothingListed(r, k);
    }
    for k := 0 to |s.journal|
      invariant ReportsTransactions(s, r, k)
      invariant r.mirrorConflicts == mirrorConflicts && r.orphans == orphans && r.differences == differences
    {
      r := AddTransaction(s.journal[k], s.ledger, k, r);
      forall j: nat | j < k ensures ReportsOne(s.journal[j], s.ledger, j, r) {
        OthersKeep(s.journal[j], s.ledger, j, r, k);
      }
      forall j: nat | k < j ensures !Listed(r, j) {
        OthersKeep(s.journal[k], s.ledger, j, r, k);
      }
    }
  }

  lemma NothingListed(r: Report, k: nat)
    requires r.mixed == r.unresolved == r.headerConflicts == r.unbalanced == {} && r.inferred == map[]
    ensures !Listed(r, k)
  {
  }

  predicate Touches(t: Transaction, id: LedgerId) {
    exists e <- t.entries :: e.account == id
  }

  lemma TransactionIsClean(t: Transaction, ledger: map<LedgerId, LedgerAccount>)
    requires TxOk(t, ledger)
    ensures EntryCurrencies(t, ledger) == {t.currency} && |EntryCurrencies(t, ledger)| == 1
    ensures forall e <- t.entries :: e.account in ledger
    ensures Sum(t.entries, Signed()) == 0
  {
    var debited, credited := t.entries[0].account, t.entries[1].account;
    assert t.entries[0] in t.entries;
    assert EntryCurrencies(t, ledger) == {t.currency};
    var es := t.entries;
    SumAppend([], es[0], Signed());
    SumAppend([es[0]], es[1], Signed());
    assert [] + [es[0]] == [es[0]] && [es[0]] + [es[1]] == es;
  }

  /** Funding is only ever debited and merchant clearing only ever credited. */
  lemma {:induction false} SystemNet(journal: seq<Transaction>, ledger: map<LedgerId, LedgerAccount>, id: LedgerId)
    requires forall t <- journal :: TxOk(t, ledger)
    requires id.ExternalFunding? || id.MerchantClearing?
    ensures if id.MerchantClearing? then 0 <= NetCredit(journal, id) else NetCredit(journal, id) <= 0
    ensures NetCredit(journal, id) != 0 <==> exists t <- journal :: Touches(t, id)
  {
    if journal != [] {
      var n := |journal| - 1;
      var t := journal[n];
      SystemNet(journal[..n], ledger, id);
      assert TxOk(t, ledger);
      TransferNet(t.key, t.currency, t.entries[0].account, t.entries[1].account, t.entries[0].amount, t.receipt, id);
      assert t == Transaction(t.key, t.currency,
                              Transfer(t.entries[0].account, t.entries[1].account, t.entries[0].amount), t.receipt);
      assert Touches(t, id) <==> id == t.entries[0].account || id == t.entries[1].account by {
        assert t.entries[0] in t.entries && t.entries[1] in t.entries;
      }
      assert journal == journal[..n] + [t];
    }
  }

  /** In every reachable state the report blocks nothing, infers the currency each header
      has, and the balances it finds different are exactly the system accounts that were
      ever posted to. */
  lemma BooksReconcile(s: State, report: Report)
    requires Reachable(s) && Reports(s, report)
    ensures report.mirrorConflicts == {} && report.mixed == {} && report.unresolved == {}
    ensures report.headerConflicts == {} && report.orphans == {} && report.unbalanced == {}
    ensures report.inferred == map k: nat | k < |s.journal| :: s.journal[k].currency
    ensures forall id :: id in report.differences <==>
              id in s.ledger && (id.ExternalFunding? || id.MerchantClearing?) && exists t <- s.journal :: Touches(t, id)
  {
    hide HoldsOk, CreditOk, StatementsOk, TxOk, Touches, EntryCurrencies, Reachable, Sum;
    ReachableValid(s);
    forall t <- s.journal
      ensures EntryCurrencies(t, s.ledger) == {t.currency} && |EntryCurrencies(t, s.ledger)| == 1
      ensures Orphans(t.entries, s.ledger.Keys) == {}
      ensures Sum(t.entries, Signed()) == 0
    {
      TransactionIsClean(t, s.ledger);
    }
    forall id <- s.ledger
      ensures s.ledger[id].cleared != JournalMinor(s.journal, id) <==>
                (id.ExternalFunding? || id.MerchantClearing?) && exists t <- s.journal :: Touches(t, id)
      ensures id.Mirror? ==> id.card in s.accounts && s.accounts[id.card].currency == s.ledger[id].currency
    {
      assert BalanceOk(s, id);
      if id.ExternalFunding? || id.MerchantClearing? {
        SystemNet(s.journal, s.ledger, id);
      }
    }
    assert forall pair <- report.orphans :: pair == (pair.0, pair.1);
    forall k: nat
      ensures k !in report.mixed && k !in report.unresolved && k !in report.headerConflicts && k !in report.unbalanced
      ensures k in report.inferred <==> k < |s.journal|
      ensures k in report.inferred ==> report.inferred[k] == s.journal[k].currency
    {
      if k < |s.journal| {
        assert ReportsOne(s.journal[k], s.ledger, k, report);
      } else {
        assert !Listed(report, k);
      }
    }
  }

  // ------------------------------------------------------------ conservation

  /** What the accounts of one currency are worth to their holders: deposits and what
      merchants are owed, less card debt and what came in from outside. */
  function Worth(s: State, c: Currency): map<LedgerId, int> {
    map id | id in s.ledger && s.ledger[id].currency == c ::
      match id
      case Deposit(_) => s.ledger[id].cleared
      case Mirror(a) => if a in s.accounts then -s.accounts[a].cleared else 0
      case ExternalFunding(_) => -s.ledger[id].cleared
      case MerchantClearing(_) => NetCredit(s.journal, id)
  }

  function Nets(journal: seq<Transaction>, ledger: map<LedgerId, LedgerAccount>, c: Currency): map<LedgerId, int> {
    map id | id in ledger && ledger[id].currency == c :: NetCredit(journal, id)
  }

  lemma {:induction false} ZerosTotalZero<K(!new)>(m: map<K, int>)
    requires forall k <- m :: m[k] == 0
    ensures Total(m) == 0
    decreases |m|
  {
    if m != map[] {
      var k :| k in m;
      TotalRemove(m, k);
      ZerosTotalZero(m - {k});
    }
  }

  /** A transaction between known accounts of its own currency whose debits are its credits. */
  predicate Square(t: Transaction, ledger: map<LedgerId, LedgerAccount>) {
    && t.entries != []
    && (forall e <- t.entries :: e.account in ledger && ledger[e.account].currency == t.currency)
    && Sum(t.entries, Directed(Debit)) == Sum(t.entries, Directed(Credit))
  }

  lemma {:induction false} DirectedDifference(entries: seq<Entry>)
    ensures Sum(entries, Signed()) == Sum(entries, Directed(Credit)) - Sum(entries, Directed(Debit))
  {
    if entries != [] {
      DirectedDifference(entries[..|entries| - 1]);
    }
  }

  /** What is posted to the accounts of a currency, entry by entry, adds up to their total. */
  lemma {:induction false} PostedAddsUp(before: map<LedgerId, int>, entries: seq<Entry>, after: map<LedgerId, int>)
    requires after.Keys == before.Keys && forall e <- entries :: e.account in before
    requires forall id <- before :: after[id] == before[id] + Sum(entries, SignedFor(id))
    ensures Total(after) == Total(before) + Sum(entries, Signed())
  {
    hide Total;
    if entries == [] {
      assert after == before;
    } else {
      var n := |entries| - 1;
      var e := entries[n];
      var amount := Signed()(e);
      var between := after[e.account := after[e.account] - amount];
      PostedAddsUp(before, entries[..n], between);
      TotalInsert(after, e.account, after[e.account] - amount);
    }
  }

  lemma PostedElsewhere(entries: seq<Entry>, id: LedgerId)
    requires forall e <- entries :: e.account != id
    ensures Sum(entries, SignedFor(id)) == 0
  {
    SumZero(entries, SignedFor(id));
  }

  /** Square transactions, of any number of entries, net to zero over the accounts of a currency. */
  lemma {:induction false} NetsCancel(journal: seq<Transaction>, ledger: map<LedgerId, LedgerAccount>, c: Currency)
    requires forall t <- journal :: Square(t, ledger)
    ensures Total(Nets(journal, ledger, c)) == 0
  {
    hide Total, Sum;
    var after := Nets(journal, ledger, c);
    if journal == [] {
      forall id <- after ensures after[id] == 0 {
        SumZero(journal, TxNet(id));
      }
      ZerosTotalZero(after);
    } else {
      var n := |journal| - 1;
      var t := journal[n];
      var before := Nets(journal[..n], ledger, c);
      NetsCancel(journal[..n], ledger, c);
      forall id <- before ensures after[id] == before[id] + Sum(t.entries, SignedFor(id)) {
        assert journal == journal[..n] + [t];
        NetAppend(journal[..n], t, id);
      }
      assert Square(t, ledger);
      if t.currency == c {
        PostedAddsUp(before, t.entries, after);
        DirectedDifference(t.entries);
      } else {
        forall id <- before ensures Sum(t.entries, SignedFor(id)) == 0 {
          PostedElsewhere(t.entries, id);
        }
        assert after == before;
      }
    }
  }

  /** Money is conserved in each currency in every reachable state: deposits plus what
      merchants are owed equal card debt plus outside funding. */
  lemma MoneyIsConserved(s: State, c: Currency)
    requires Reachable(s)
    ensures Total(Worth(s, c)) == 0
  {
    hide HoldsOk, CreditOk, StatementsOk, TxOk, Total, Reachable;
    ReachableValid(s);
    forall t <- s.journal ensures Square(t, s.ledger) {
      TransactionIsSquare(t, s.ledger);
    }
    NetsCancel(s.journal, s.ledger, c);
    forall id <- s.ledger ensures BalanceOk(s, id) {
    }
    assert Worth(s, c) == Nets(s.journal, s.ledger, c);
  }

  lemma TransactionIsSquare(t: Transaction, ledger: map<LedgerId, LedgerAccount>)
    requires TxOk(t, ledger)
    ensures Square(t, ledger)
  {
    TransactionIsClean(t, ledger);
    DirectedDifference(t.entries);
  }

  /** What stops a migration: anything in the report but differing balances. */
  predicate Blocks(r: Report) {
    || r.mirrorConflicts != {} || r.mixed != {} || r.unresolved != {} || r.headerConflicts != {}
    || r.orphans != {} || r.unbalanced != {}
  }

  /** The report of any books, reachable or not, blocks nothing exactly when all their
      transactions are square and every mirror has its card account in its currency. */
  lemma BlocksUnlessSquare(s: State, r: Report)
    requires Reports(s, r)
    ensures !Blocks(r) <==>
      && (forall t <- s.journal :: Square(t, s.ledger))
      && (forall id <- s.ledger :: id.Mirror? ==>
            id.card in s.accounts && s.accounts[id.card].currency == s.ledger[id].currency)
  {
    hide Square, EntryCurrencies, Sum;
    forall k: nat | k < |s.journal|
      ensures Square(s.journal[k], s.ledger) <==>
        && k !in r.mixed && k !in r.unresolved && k !in r.headerConflicts && k !in r.unbalanced
        && forall i: nat :: (k, i) !in r.orphans
    {
      assert ReportsOne(s.journal[k], s.ledger, k, r);
      SquareIsUnlisted(s.journal[k], s.ledger, k, r);
    }
    assert forall pair <- r.orphans :: pair == (pair.0, pair.1);
    if !Blocks(r) {
      forall id <- s.ledger | id.Mirror?
        ensures id.card in s.accounts && s.accounts[id.card].currency == s.ledger[id].currency
      {
        assert id !in r.mirrorConflicts;
      }
      forall t <- s.journal ensures Square(t, s.ledger) {
        var k :| 0 <= k < |s.journal| && s.journal[k] == t;
        assert (k as nat) !in r.mixed;
      }
    } else if forall t <- s.journal :: Square(t, s.ledger) {
      forall k: nat
        ensures k !in r.mixed && k !in r.unresolved && k !in r.headerConflicts && k !in r.unbalanced
      {
        if k < |s.journal| {
          assert Square(s.journal[k], s.ledger);
        } else {
          assert !Listed(r, k);
        }
      }
      assert r.mixed == r.unresolved == r.headerConflicts == r.unbalanced == {} && r.orphans == {};
    }
  }

  lemma SquareIsUnlisted(t: Transaction, ledger: map<LedgerId, LedgerAccount>, k: nat, r: Report)
    requires ReportsOne(t, ledger, k, r)
    ensures Square(t, ledger) <==>
      && k !in r.mixed && k !in r.unresolved && k !in r.headerConflicts && k !in r.unbalanced
      && Orphans(t.entries, ledger.Keys) == {}
  {
    hide Sum, Directed;
    DirectedDifference(t.entries);
    var currencies := EntryCurrencies(t, ledger);
    if Square(t, ledger) {
      assert ledger[t.entries[0].account].currency in currencies;
      assert currencies == {t.currency};
    } else if Orphans(t.entries, ledger.Keys) == {} && |currencies| == 1 && currencies == {t.currency} {
      forall e <- t.entries ensures e.account in ledger && ledger[e.account].currency == t.currency {
        var i :| 0 <= i < |t.entries| && t.entries[i] == e;
        assert i !in Orphans(t.entries, ledger.Keys);
        assert ledger[e.account].currency in currencies;
      }
      assert t.entries != [];
    }
  }

  /** What the accounts of one currency hold by their rows, receivables against the rest. */
  function Cached(s: State, c: Currency): map<LedgerId, int> {
    map id | id in s.ledger && s.ledger[id].currency == c ::
      if id.Mirror? then -s.ledger[id].cleared else s.ledger[id].cleared
  }

  /** A report that blocks nothing shows of any books that what was posted conserves money
      in each currency; one without differences, that so do the balances themselves. */
  lemma QuietReportConserves(s: State, r: Report, c: Currency)
    requires Reports(s, r) && !Blocks(r)
    ensures Total(Nets(s.journal, s.ledger, c)) == 0
    ensures r.differences == {} ==> Total(Cached(s, c)) == 0
  {
    hide Total, Blocks, Square;
    BlocksUnlessSquare(s, r);
    NetsCancel(s.journal, s.ledger, c);
    if r.differences == {} {
      forall id <- s.ledger ensures s.ledger[id].cleared == JournalMinor(s.journal, id) {
        assert id !in r.differences;
      }
      assert Cached(s, c) == Nets(s.journal, s.ledger, c);
    }
  }

  function Deposits(s: State): map<LedgerId, int> {
    map id | id in s.ledger && id.Deposit? :: s.ledger[id].cleared
  }

  function Debts(s: State): map<CardAccountId, int> {
    map a | a in s.accounts :: s.accounts[a].cleared
  }

  /** A payment takes the same amount off its deposit and off its card, moves nothing
      else, and so keeps total deposits less total debt exactly. */
  lemma PaymentPreservesDifference(s: State, user: User, request: PaymentRequest, key: string, digest: Digest)
    requires Pay(s, user, request, key, digest).1.PaymentPosted?
    ensures var s' := Pay(s, user, request, key, digest).0;
      && Deposit(request.source) in s.ledger && request.card in s.accounts
      && Deposits(s')
         == Deposits(s)[Deposit(request.source) := s.ledger[Deposit(request.source)].cleared - request.amount]
      && Debts(s') == Debts(s)[request.card := s.accounts[request.card].cleared - request.amount]
      && Total(Deposits(s')) - Total(Debts(s')) == Total(Deposits(s)) - Total(Debts(s))
  {
    hide Pay, LineOk, Recalculated, Total;
    PayIsPosting(s, user, request, key, digest);
    var source := Deposit(request.source);
    TotalInsert(Deposits(s), source, s.ledger[source].cleared - request.amount);
    TotalInsert(Debts(s), request.card, s.accounts[request.card].cleared - request.amount);
  }

  // ------------------------------------------------------ accounts not in USD

  /** Holds are in USD, and card accounts in another currency owe nothing. */
  ghost predicate ForeignIdle(s: State) {
    && (forall h <- s.holds :: h.currency == USD)
    && (forall a <- s.accounts :: s.accounts[a].currency != USD ==> s.accounts[a].cleared == 0)
  }

  lemma SettleKeepsForeignIdle(s: State, rrn: Rrn, amount: int)
    requires Valid(s) && ForeignIdle(s)
    ensures ForeignIdle(Settle(s, rrn, amount).0)
  {
    hide Valid, Settle, Charged, Prepared, Recalculated, LineOk;
    FailureChangesNothing(s, OpSettle(rrn, amount));
    if Settle(s, rrn, amount).1.SettlementPosted? {
      var i := SettleIsCharge(s, rrn, amount);
      PreparedAccounts(s, s.holds[i].account);
      var p := Prepared(s, s.holds[i].account);
      ChargeIsFresh(p, i, amount);
      ChargeIsPosting(p, i, amount);
      assert Countable(s.holds[i], s.holds[i].account, s.accounts[s.holds[i].account].currency);
    }
  }

  lemma PayKeepsForeignIdle(s: State, user: User, request: PaymentRequest, key: string, digest: Digest)
    requires ForeignIdle(s)
    ensures ForeignIdle(Pay(s, user, request, key, digest).0)
  {
    hide Pay, LineOk, Recalculated;
    FailureChangesNothing(s, OpPay(user, request, key, digest));
    if Pay(s, user, request, key, digest).1.PaymentPosted? {
      PayIsPosting(s, user, request, key, digest);
    }
  }

  lemma StepKeepsForeignIdle(s: State, op: Op)
    requires Valid(s) && ForeignIdle(s)
    ensures ForeignIdle(Step(s, op).0)
  {
    hide Valid, Settle, Pay, Post, EnsureSystem, PendingTotal;
    match op
    case OpSettle(rrn, amount) => SettleKeepsForeignIdle(s, rrn, amount);
    case OpPay(user, request, key, digest) => PayKeepsForeignIdle(s, user, request, key, digest);
    case _ =>
  }

  lemma {:induction false} RunKeepsForeignIdle(s: State, ops: seq<Op>)
    requires Genesis(s)
    ensures ForeignIdle(Run(s, ops))
  {
    hide Step, Valid;
    if ops != [] {
      var earlier := ops[..|ops| - 1];
      GenesisValid(s);
      RunKeepsForeignIdle(s, earlier);
      RunKeepsValid(s, earlier);
      StepKeepsForeignIdle(Run(s, earlier), ops[|ops| - 1]);
    }
  }

  /** In no reachable state does a card account that is not in USD have an active hold or owe anything. */
  lemma ForeignAccountsStayIdle(s: State)
    requires Reachable(s)
    ensures forall a <- s.accounts :: s.accounts[a].currency != USD ==> s.accounts[a].cleared == 0
    ensures forall h <- s.holds :: h.Active() ==> h.account in s.accounts && s.accounts[h.account].currency == USD
  {
    hide CreditOk, JournalOk, BalancesOk, StatementsOk, Run, Genesis;
    var genesis, ops :| Genesis(genesis) && s == Run(genesis, ops);
    RunKeepsForeignIdle(genesis, ops);
    ReachableValid(s);
    forall h <- s.holds | h.Active() ensures h.account in s.accounts && s.accounts[h.account].currency == USD {
      assert Countable(h, h.account, s.accounts[h.account].currency);
    }
  }
}
