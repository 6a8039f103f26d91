/** What holds of the card ledger over every run of its operations. */
module CardTheorems {
  import opened Options
  import opened Sums
  import opened Text
  import opened CardState
  import opened CardInvariants
  import opened CardPreservation

  // ------------------------------------------------------------ credit limit

  /** Debt plus active holds of a card account. */
  function Exposure(s: State, a: CardAccountId): int
    requires a in s.accounts
  {
    s.accounts[a].cleared + Held(s.holds, a)
  }

  /** By how much settling takes more from account `a` than the hold had reserved. */
  function Excess(s: State, op: Op, a: CardAccountId): nat {
    if op.OpSettle? && Step(s, op).1.SettlementPosted? then
      var found := FindHold(s.holds, op.rrn, true);
      if found.Some? && s.holds[found.value].account == a
      then Max(0, op.amount - s.holds[found.value].amount) else 0
    else 0
  }

  function TotalExcess(s: State, ops: seq<Op>, a: CardAccountId): nat {
    if ops == [] then 0
    else TotalExcess(s, ops[..|ops| - 1], a) + Excess(Run(s, ops[..|ops| - 1]), ops[|ops| - 1], a)
  }

  /** Account `a` keeps its limit, and its exposure grows past the limit by at most `excess`. */
  ghost predicate Bounded(s: State, s': State, a: CardAccountId, excess: nat)
    requires a in s.accounts
  {
    && a in s'.accounts
    && s'.accounts[a].limit == s.accounts[a].limit
    && Exposure(s', a) <= Max(s.accounts[a].limit, Exposure(s, a)) + excess
  }

  /** A granted hold raises the exposure of its account alone, by its amount, and fits
      under the limit unless the amount is zero. */
  lemma ApprovalFits(s: State, token: string, rrn: Rrn, amount: int, flagged: bool)
    requires HoldsOk(s) && CreditOk(s) && Authorize(s, token, rrn, amount, flagged).1.AuthApproved?
    ensures var s' := Authorize(s, token, rrn, amount, flagged).0;
      var a := s.cards[token].account;
      && s'.accounts.Keys == s.accounts.Keys
      && Exposure(s', a) == Exposure(s, a) + amount
      && (amount == 0 || Exposure(s', a) <= s.accounts[a].limit)
      && s'.accounts[a].limit == s.accounts[a].limit
      && forall b <- s.accounts :: b != a ==> s'.accounts[b] == s.accounts[b] && Held(s'.holds, b) == Held(s.holds, b)
  {
    hide PendingTotal;
    var a := s.cards[token].account;
    var h := Hold(a, amount, USD, Authorize(s, token, rrn, amount, flagged).1.status, rrn);
    assert PendingTotal(s.holds + [h], a, s.accounts[a].currency).Some?;
    assert Countable(h, a, s.accounts[a].currency) by {
      RecalculatedIs(s.holds + [h], a, s.accounts[a]);
      assert h in s.holds + [h];
    }
    forall b ensures Held(s.holds + [h], b) == Held(s.holds, b) + HeldBy(b)(h) {
      HeldAppend(s.holds, h, b);
    }
  }

  lemma AuthorizeExposure(s: State, token: string, rrn: Rrn, amount: int, flagged: bool, a: CardAccountId)
    requires HoldsOk(s) && CreditOk(s) && a in s.accounts
    ensures Bounded(s, Authorize(s, token, rrn, amount, flagged).0, a, 0)
  {
    var (s', r) := Authorize(s, token, rrn, amount, flagged);
    if r.AuthApproved? {
      ApprovalFits(s, token, rrn, amount, flagged);
    } else if r == AuthDeclined(InsufficientFunds) {
      HeldAppend(s.holds, Hold(s.cards[token].account, amount, USD, Declined, rrn), a);
    }
  }

  lemma SettleExposure(s: State, rrn: Rrn, amount: int, a: CardAccountId)
    requires Valid(s) && a in s.accounts
    ensures Bounded(s, Settle(s, rrn, amount).0, a, Excess(s, OpSettle(rrn, amount), a))
  {
    hide Valid, Settle, Charged, Prepared, Recalculated, LineOk;
    FailureChangesNothing(s, OpSettle(rrn, amount));
    if Settle(s, rrn, amount).1.SettlementPosted? {
      var i := SettleIsCharge(s, rrn, amount);
      PreparedAccounts(s, s.holds[i].account);
      var p := Prepared(s, s.holds[i].account);
      ChargeIsFresh(p, i, amount);
      ChargeIsPosting(p, i, amount);
      ReleaseHold(p, i, Settled);
    }
  }

  lemma PreparedAccounts(s: State, a: CardAccountId)
    requires Valid(s) && a in s.accounts
    ensures EnsureMirror(s.ledger, a, s.accounts[a]).Some?
    ensures EnsureSystem(EnsureMirror(s.ledger, a, s.accounts[a]).value,
                         MerchantClearing(s.accounts[a].currency), s.accounts[a].currency).Some?
    ensures var p := Prepared(s, a);
      && Valid(p) && HoldsOk(p)
      && p.holds == s.holds && p.accounts == s.accounts && p.journal == s.journal && p.statements == s.statements
      && Mirror(a) in p.ledger && MerchantClearing(s.accounts[a].currency) in p.ledger
      && 0 <= p.accounts[a].cleared
  {
    PreparedKeepsValid(s, a);
  }

  lemma ReverseExposure(s: State, rrn: Rrn, a: CardAccountId)
    requires HoldsOk(s) && a in s.accounts
    ensures Bounded(s, Reverse(s, rrn).0, a, 0)
  {
    hide Recalculated;
    var (s', r) := Reverse(s, rrn);
    if r.HoldReversed? {
      var i := FindHold(s.holds, rrn, true).value;
      RecalculatedIs(s'.holds, s.holds[i].account, s.accounts[s.holds[i].account]);
      ReleaseHold(s, i, Reversed);
      assert Countable(s.holds[i], s.holds[i].account, s.accounts[s.holds[i].account].currency);
    }
  }

  lemma PayExposure(s: State, user: User, request: PaymentRequest, key: string, digest: Digest, a: CardAccountId)
    requires a in s.accounts
    ensures Bounded(s, Pay(s, user, request, key, digest).0, a, 0)
  {
    hide Pay, LineOk, Recalculated;
    FailureChangesNothing(s, OpPay(user, request, key, digest));
    if Pay(s, user, request, key, digest).1.PaymentPosted? {
      PayIsPosting(s, user, request, key, digest);
    }
  }

  lemma StepExposure(s: State, op: Op, a: CardAccountId)
    requires Valid(s) && a in s.accounts
    ensures Bounded(s, Step(s, op).0, a, Excess(s, op, a))
  {
    hide Bounded, Authorize, Settle, Reverse, Pay, HoldsOk, CreditOk, JournalOk, BalancesOk, StatementsOk;
    match op
    case OpAuthorize(token, rrn, amount, flagged) => AuthorizeExposure(s, token, rrn, amount, flagged, a);
    case OpSettle(rrn, amount) => SettleExposure(s, rrn, amount, a);
    case OpReverse(rrn) => ReverseExposure(s, rrn, a);
    case OpPay(user, request, key, digest) => PayExposure(s, user, request, key, digest, a);
    case OpOpen(user, number, initial, key, uuid) => OpenExposure(s, user, number, initial, key, uuid, a);
  }

  lemma OpenExposure(s: State, user: User, number: nat, initial: nat, key: Option<string>, uuid: Uuid, a: CardAccountId)
    requires a in s.accounts
    ensures Bounded(s, Open(s, user, number, initial, key, uuid).0, a, 0)
  {
    hide Post, EnsureSystem;
  }

  /** Debt plus active holds never pass the limit by more than what settlements took
      beyond their holds; without such settlements the limit is never overrun. */
  lemma {:induction false} LimitIsKept(s: State, ops: seq<Op>, a: CardAccountId)
    requires Genesis(s) && a in s.accounts
    ensures var s' := Run(s, ops);
      && a in s'.accounts && s'.accounts[a].limit == s.accounts[a].limit
      && Exposure(s', a) <= s.accounts[a].limit + TotalExcess(s, ops, a)
  {
    GenesisValid(s);
    if ops != [] {
      var earlier := ops[..|ops| - 1];
      LimitIsKept(s, earlier, a);
      RunKeepsValid(s, earlier);
      StepExposure(Run(s, earlier), ops[|ops| - 1], a);
    }
  }

  // --------------------------------------------------------------- decisions

  lemma NewHoldCounts(s: State, h: Hold)
    requires HoldsOk(s) && CreditOk(s) && h.account in s.accounts && h.Active()
    ensures Recalculated(s.holds + [h], h.account, s.accounts[h.account]).Some? <==>
      && h.currency == s.accounts[h.account].currency
      && 0 <= h.amount && Held(s.holds, h.account) + h.amount <= MAX_MINOR
  {
    var a := h.account;
    HeldAppend(s.holds, h, a);
    assert h in s.holds + [h];
    assert forall o <- s.holds :: Countable(o, o.account, s.accounts[o.account].currency);
  }

  /** Exactly when an authorisation is granted, in terms of debt, holds and limit.
      Holds are recorded in USD, so only USD accounts are ever granted one. */
  lemma ApprovalDecision(s: State, token: string, rrn: Rrn, amount: int, flagged: bool)
    requires Valid(s)
    ensures Authorize(s, token, rrn, amount, flagged).1.AuthApproved? <==>
      && (forall h <- s.holds :: h.rrn != rrn)
      && token in s.cards && s.cards[token].usable
      && var a := s.cards[token].account;
      && a in s.accounts && s.accounts[a].active && s.accounts[a].currency == USD
      && (amount == 0 || 0 < amount <= Min(s.accounts[a].limit, s.accounts[a].limit - Exposure(s, a)))
      && Held(s.holds, a) + amount <= MAX_MINOR
  {
    hide HoldsOk, JournalOk, BalancesOk, StatementsOk, Recalculated;
    if token in s.cards && s.cards[token].account in s.accounts {
      var a := s.cards[token].account;
      NewHoldCounts(s, Hold(a, amount, USD, if flagged then Flagged else Pending, rrn));
    }
  }

  /** A new RRN on a usable card of an active account. */
  ghost predicate Chargeable(s: State, token: string, rrn: Rrn) {
    && (forall h <- s.holds :: h.rrn != rrn)
    && token in s.cards && s.cards[token].usable
    && s.cards[token].account in s.accounts && s.accounts[s.cards[token].account].active
  }

  /** What is left of the limit after debt and active holds. */
  function Headroom(s: State, a: CardAccountId): int
    requires a in s.accounts
  {
    Max(0, Min(s.accounts[a].limit, s.accounts[a].limit - Exposure(s, a)))
  }

  /** Which answer an authorisation gets: a recorded RRN is replayed; of the others each
      decline has its one reason, and what is beyond the headroom is declined for it. */
  lemma AuthorizationAnswers(s: State, token: string, rrn: Rrn, amount: int, flagged: bool, r: Response)
    requires Valid(s) && r == Authorize(s, token, rrn, amount, flagged).1
    ensures r.AuthReplayed? <==> exists h <- s.holds :: h.rrn == rrn
    ensures r.AuthReplayed? ==> exists h <- s.holds :: h.rrn == rrn && r.status == h.status
    ensures (forall h <- s.holds :: h.rrn != rrn) ==>
              && (r == AuthDeclined(CardNotFound) <==> token !in s.cards)
              && (r == AuthDeclined(CardBlocked) <==> token in s.cards && !s.cards[token].usable)
              && (r == AuthDeclined(AccountNotFound) <==>
                    token in s.cards && s.cards[token].usable && s.cards[token].account !in s.accounts)
              && (r == AuthDeclined(AccountFrozen) <==>
                    && token in s.cards && s.cards[token].usable && s.cards[token].account in s.accounts
                    && !s.accounts[s.cards[token].account].active)
    ensures r == AuthDeclined(InsufficientFunds) <==>
              Chargeable(s, token, rrn) && amount > Headroom(s, s.cards[token].account)
    ensures r.AuthApproved? || r.Failed? <==>
              Chargeable(s, token, rrn) && amount <= Headroom(s, s.cards[token].account)
    ensures r.AuthApproved? <==>
              && Chargeable(s, token, rrn) && amount <= Headroom(s, s.cards[token].account)
              && s.accounts[s.cards[token].account].currency == USD && 0 <= amount
              && Held(s.holds, s.cards[token].account) + amount <= MAX_MINOR
  {
    hide HoldsOk, JournalOk, BalancesOk, StatementsOk, Recalculated;
    ApprovalDecision(s, token, rrn, amount, flagged);
    if FindHold(s.holds, rrn, false).Some? {
      assert s.holds[FindHold(s.holds, rrn, false).value] in s.holds;
    }
  }

  /** What an authorisation changes: a decline for want of funds records a declined hold; a
      grant records an active one and takes its amount off the cached credit; nothing else
      ever changes. */
  lemma AuthorizationEffect(s: State, token: string, rrn: Rrn, amount: int, flagged: bool, s': State, r: Response)
    requires Valid(s) && (s', r) == Authorize(s, token, rrn, amount, flagged)
    ensures r == AuthDeclined(InsufficientFunds) ==>
              && token in s.cards
              && s' == s.(holds := s.holds + [Hold(s.cards[token].account, amount, USD, Declined, rrn)])
    ensures r.AuthApproved? ==>
              && token in s.cards && s.cards[token].account in s.accounts
              && r.status == (if flagged then Flagged else Pending)
              && var a := s.cards[token].account; var account := s.accounts[a];
              var credit := AvailableCredit(account.limit, account.cleared, Held(s.holds, a) + amount);
              s' == s.(holds := s.holds + [Hold(a, amount, USD, r.status, rrn)],
                       accounts := s.accounts[a := account.(available := credit)])
    ensures r != AuthDeclined(InsufficientFunds) && !r.AuthApproved? ==> s' == s
  {
    hide Valid;
    if r.AuthApproved? {
      var a := s.cards[token].account;
      HeldAppend(s.holds, Hold(a, amount, USD, r.status, rrn), a);
    }
  }

  lemma SettlementNeeds(s: State, rrn: Rrn, amount: int)
    requires Valid(s) && Settle(s, rrn, amount).1.SettlementPosted?
    ensures 0 < amount <= MAX_MINOR && FindHold(s.holds, rrn, true).Some?
    ensures FindKey(s.journal, SettlementKey(rrn)).None?
  {
    hide Valid, Charged, Prepared;
    var i := SettleIsCharge(s, rrn, amount);
    PreparedAccounts(s, s.holds[i].account);
    ChargeIsFresh(Prepared(s, s.holds[i].account), i, amount);
  }

  lemma SettlementSuffices(s: State, rrn: Rrn, amount: int)
    requires Valid(s) && 0 < amount <= MAX_MINOR && FindHold(s.holds, rrn, true).Some?
    requires FindKey(s.journal, SettlementKey(rrn)).None?
    ensures Settle(s, rrn, amount).1.SettlementPosted?
  {
    hide Valid, Book, Recalculated, FindHold, FindKey;
    var i := FindHold(s.holds, rrn, true).value;
    HoldHasAccount(s, i);
    PreparedAccounts(s, s.holds[i].account);
    ChargeGoesThrough(Prepared(s, s.holds[i].account), i, amount);
  }

  lemma HoldHasAccount(s: State, i: nat)
    requires Valid(s) && i < |s.holds|
    ensures s.holds[i].account in s.accounts
  {
    assert s.holds[i] in s.holds;
  }

  /** Exactly when a settlement goes through: an active hold has the RRN and no
      transaction was ever posted under its settlement key. */
  lemma SettlementDecision(s: State, rrn: Rrn, amount: int)
    requires Valid(s)
    ensures Settle(s, rrn, amount).1.SettlementPosted? <==>
      && 0 < amount <= MAX_MINOR
      && (exists h <- s.holds :: h.rrn == rrn && h.Active())
      && (forall t <- s.journal :: t.key != SettlementKey(rrn))
    ensures !Settle(s, rrn, amount).1.SettlementPosted? ==> Settle(s, rrn, amount) == (s, Failed)
  {
    hide Valid, Settle;
    FailureChangesNothing(s, OpSettle(rrn, amount));
    if Settle(s, rrn, amount).1.SettlementPosted? {
      SettlementNeeds(s, rrn, amount);
      assert s.holds[FindHold(s.holds, rrn, true).value] in s.holds;
    } else if 0 < amount <= MAX_MINOR && FindHold(s.holds, rrn, true).Some?
              && FindKey(s.journal, SettlementKey(rrn)).None? {
      SettlementSuffices(s, rrn, amount);
    }
  }

  lemma ChargeGoesThrough(p: State, i: nat, amount: int)
    requires Valid(p) && i < |p.holds| && p.holds[i].Active() && 0 < amount
    requires p.holds[i].account in p.accounts
    requires Mirror(p.holds[i].account) in p.ledger
    requires MerchantClearing(p.accounts[p.holds[i].account].currency) in p.ledger
    requires FindKey(p.journal, SettlementKey(p.holds[i].rrn)).None?
    ensures Charged(p, i, amount).Some?
  {
    hide JournalOk, StatementsOk, FindKey, Post, PendingTotal;
    var h := p.holds[i];
    var a := h.account;
    var clearing := MerchantClearing(p.accounts[a].currency);
    assert Countable(h, a, p.accounts[a].currency);
    assert BalanceOk(p, Mirror(a)) && BalanceOk(p, clearing);
    var p' := p.(holds := p.holds[i := h.(status := Settled)]);
    PostAppends(p', SettlementKey(h.rrn), h.currency, Mirror(a), clearing, amount);
    LinesArePosted(p);
    ReleaseHold(p, i, Settled);
    RecalculationSucceeds(p', a, p.accounts[a].(cleared := p.accounts[a].cleared + amount), Held(p.holds, a));
  }

  lemma PostAppends(s: State, key: TxKey, currency: Currency, debited: LedgerId, credited: LedgerId, amount: int)
    requires FindKey(s.journal, key).None? && |key| <= KEY_WIDTH && 0 < amount
    requires debited in s.ledger && s.ledger[debited].currency == currency
    requires credited in s.ledger && s.ledger[credited].currency == currency
    ensures Post(s, key, currency, Transfer(debited, credited, amount)) == Appended(|s.journal|)
  {
    TransferBalanced(debited, credited, amount, Debit);
    TransferBalanced(debited, credited, amount, Credit);
  }

  lemma LinesArePosted(s: State)
    requires StatementsOk(s)
    ensures forall l <- s.statements :: l.tx != |s.journal|
  {
    forall l <- s.statements ensures l.tx != |s.journal| {
      assert LineOk(s, l);
    }
  }

  lemma RecalculationSucceeds(s: State, a: CardAccountId, account: CardAccount, bound: int)
    requires HoldsOk(s) && a in s.accounts && account.currency == s.accounts[a].currency
    requires Held(s.holds, a) <= bound <= MAX_MINOR
    ensures Recalculated(s.holds, a, account)
            == Some(account.(available := AvailableCredit(account.limit, account.cleared, Held(s.holds, a))))
  {
    HeldBounds(s, a);
    forall h <- s.holds ensures Countable(h, a, account.currency) {
      assert Countable(h, h.account, s.accounts[h.account].currency);
    }
  }

  /** Exactly when a deposit opens: its number is new and, if it is funded, the amount is
      `Money` and no transaction of any kind stands under its key, which fits its column. */
  lemma OpenDecision(s: State, user: User, number: nat, initial: nat, key: Option<string>, uuid: Uuid)
    requires Valid(s)
    ensures Open(s, user, number, initial, key, uuid).1.DepositOpened? <==>
      && Deposit(number) !in s.ledger
      && (initial == 0 || (&& initial <= MAX_MINOR && |FundingKey(key, uuid)| <= KEY_WIDTH
                           && forall t <- s.journal :: t.key != FundingKey(key, uuid)))
    ensures !Open(s, user, number, initial, key, uuid).1.DepositOpened? ==>
              Open(s, user, number, initial, key, uuid) == (s, Failed)
  {
    hide HoldsOk, CreditOk, StatementsOk;
    FailureChangesNothing(s, OpOpen(user, number, initial, key, uuid));
    var id, system := Deposit(number), ExternalFunding(USD);
    if id !in s.ledger && 0 < initial <= MAX_MINOR {
      var entries := Transfer(system, id, initial);
      var ledger := EnsureSystem(s.ledger[id := LedgerAccount(Some(user), USD, true, initial, 0, 0)], system, USD);
      if system in s.ledger {
        assert BalanceOk(s, system);
      }
      OpenPostsAfresh(s, ledger.value, number, initial, FundingKey(key, uuid));
      TransferBalanced(system, id, initial, Debit);
      TransferBalanced(system, id, initial, Credit);
      assert forall e <- entries ::
          0 < e.amount && e.account in ledger.value && ledger.value[e.account].currency == USD;
    }
  }

  /** What a caller can check before a payment: the request itself, a digest text under which
      no transaction stands, rows of the caller in the right currency, and enough money on
      one side and debt on the other. */
  predicate Payable(s: State, user: User, request: PaymentRequest, key: string, digest: Digest) {
    var PaymentRequest(number, a, amount, currency) := request;
    var source := Deposit(number);
    && 0 < amount <= MAX_MINOR && !IsBlank(key) && |key| <= 128
    && FindKey(s.journal, PaymentKey(digest)).None?
    && source in s.ledger && s.ledger[source].owner == Some(user) && s.ledger[source].active
    && a in s.accounts && s.accounts[a].owner == user && s.accounts[a].active
    && s.ledger[source].currency == currency == s.accounts[a].currency
    && amount <= s.ledger[source].cleared && amount <= s.accounts[a].cleared
    && s.accounts[a].cleared - amount <= MAX_MINOR
    && AvailableCredit(s.accounts[a].limit, s.accounts[a].cleared - amount, Held(s.holds, a)) <= MAX_MINOR
  }

  lemma PaymentNeeds(s: State, user: User, request: PaymentRequest, key: string, digest: Digest)
    requires Valid(s) && Pay(s, user, request, key, digest).1.PaymentPosted?
    ensures Payable(s, user, request, key, digest)
  {
    hide Book, Post, LineOk, JournalOk, StatementsOk, EnsureMirror;
    PayIsPosting(s, user, request, key, digest);
  }

  /** Posting afresh, an unused line and a countable total make a booking go through. */
  lemma BookGoesThrough(s: State, a: CardAccountId, key: TxKey, currency: Currency, entries: seq<Entry>,
                        hold: Option<nat>, delta: int)
    requires a in s.accounts && Mirror(a) in s.ledger
    requires Post(s, key, currency, entries) == Appended(|s.journal|)
    requires forall l <- s.statements :: l.tx != |s.journal|
    requires Recalculated(s.holds, a, s.accounts[a].(cleared := s.accounts[a].cleared + delta)).Some?
    ensures var booked := Book(s, a, key, currency, entries, hold, delta);
      && booked.Some? && booked.value.1 == |s.journal| < |booked.value.0.journal|
      && booked.value.0.accounts == s.accounts[a :=
           Recalculated(s.holds, a, s.accounts[a].(cleared := s.accounts[a].cleared + delta)).value]
  {
    hide Post, Recalculated;
  }

  lemma MirrorIsAdded(ledger: map<LedgerId, LedgerAccount>, a: CardAccountId, account: CardAccount)
    requires EnsureMirror(ledger, a, account).Some?
    ensures var grown := EnsureMirror(ledger, a, account).value;
      && Mirror(a) in grown && grown[Mirror(a)].currency == account.currency
      && grown == ledger[Mirror(a) := grown[Mirror(a)]]
  {
  }

  lemma NothingToReplay(journal: seq<Transaction>, key: TxKey, request: PaymentRequest)
    requires FindKey(journal, key).None?
    ensures CardState.Replay(journal, key, request).None?
  {
  }

  lemma HeldIsMoney(s: State, a: CardAccountId)
    requires CreditOk(s) && a in s.accounts
    ensures 0 <= Held(s.holds, a) <= MAX_MINOR
  {
  }

  lemma PaymentSuffices(s: State, user: User, request: PaymentRequest, key: string, digest: Digest)
    requires Valid(s) && Payable(s, user, request, key, digest)
    ensures Pay(s, user, request, key, digest).1.PaymentPosted?
  {
    hide HoldsOk, CreditOk, JournalOk, StatementsOk, Post, FindKey, Recalculated, Held, Book, CardState.Replay,
      IsBlank, EnsureMirror;
    var PaymentRequest(number, a, amount, currency) := request;
    var source := Deposit(number);
    MirrorKeepsValid(s, a);
    MirrorIsAdded(s.ledger, a, s.accounts[a]);
    LinesArePosted(s);
    NothingToReplay(s.journal, PaymentKey(digest), request);
    assert BalanceOk(s, source);
    var p := s.(ledger := EnsureMirror(s.ledger, a, s.accounts[a]).value);
    var payer := p.ledger[source].(cleared := p.ledger[source].cleared - amount);
    var posted := p.(ledger := p.ledger[source := payer]);
    PostAppends(posted, PaymentKey(digest), currency, source, Mirror(a), amount);
    HeldIsMoney(s, a);
    RecalculationSucceeds(s, a, s.accounts[a].(cleared := s.accounts[a].cleared - amount), Held(s.holds, a));
    BookGoesThrough(posted, a, PaymentKey(digest), currency, Transfer(source, Mirror(a), amount), None, -amount);
  }

  lemma PaymentReplays(s: State, user: User, request: PaymentRequest, key: string, digest: Digest, answer: Response)
    requires Valid(s) && answer == Pay(s, user, request, key, digest).1
    ensures answer.PaymentReplayed? <==>
              && 0 < request.amount <= MAX_MINOR && !IsBlank(key) && |key| <= 128
              && exists t <- s.journal ::
                   t.key == PaymentKey(digest) && t.receipt.Some? && t.receipt.value.request == request
    ensures answer.PaymentReplayed? ==>
              exists t <- s.journal :: t.key == PaymentKey(digest) && t.receipt == Some(Receipt(request, answer.result))
    ensures answer.PaymentPosted? || answer.PaymentReplayed? || answer.Failed?
  {
    hide CreditOk, HoldsOk, BalancesOk, StatementsOk, TxOk, Book, EnsureMirror, IsBlank;
  }

  /** Exactly when a payment goes through and when its stored answer is given again; a lock
      conflict apart, nothing else can happen, and only a payment that goes through changes
      anything. */
  lemma PaymentDecision(s: State, user: User, request: PaymentRequest, key: string, digest: Digest, answer: Response)
    requires Valid(s) && answer == Pay(s, user, request, key, digest).1
    ensures answer.PaymentPosted? <==> Payable(s, user, request, key, digest)
    ensures !answer.PaymentPosted? ==> Pay(s, user, request, key, digest).0 == s
    ensures answer.PaymentReplayed? <==>
              && 0 < request.amount <= MAX_MINOR && !IsBlank(key) && |key| <= 128
              && exists t <- s.journal ::
                   t.key == PaymentKey(digest) && t.receipt.Some? && t.receipt.value.request == request
    ensures answer.PaymentReplayed? ==>
              exists t <- s.journal :: t.key == PaymentKey(digest) && t.receipt == Some(Receipt(request, answer.result))
    ensures !answer.PaymentPosted? && !answer.PaymentReplayed? ==> answer.Failed?
  {
    hide Valid, Pay, Payable;
    FailureChangesNothing(s, OpPay(user, request, key, digest));
    PaymentReplays(s, user, request, key, digest, answer);
    if answer.PaymentPosted? {
      PaymentNeeds(s, user, request, key, digest);
    } else if Payable(s, user, request, key, digest) {
      PaymentSuffices(s, user, request, key, digest);
    }
  }

  // ----------------------------------------------------------------- effects

  /** Exactly when entries are appended, found posted, or refused; in a valid state a
      permutation of what stands under the key is the one thing that is found. */
  lemma PostingDecision(s: State, key: TxKey, currency: Currency, entries: seq<Entry>)
    requires JournalOk(s)
    ensures var p := Post(s, key, currency, entries);
      && (!p.Refused? ==> Orderly(entries))
      && (forall k: nat :: p == AlreadyPosted(k) <==>
            && k < |s.journal| && s.journal[k].key == key
            && s.journal[k].currency == currency && multiset(s.journal[k].entries) == multiset(entries))
      && (p.Appended? <==>
            && (forall t <- s.journal :: t.key != key) && |key| <= KEY_WIDTH && Orderly(entries)
            && (forall e <- entries :: e.account in s.ledger && s.ledger[e.account].currency == currency))
  {
    hide CreditOk, HoldsOk, BalancesOk, TxOk, Directed, Sum;
    forall k: nat | k < |s.journal| && s.journal[k].key == key && multiset(s.journal[k].entries) == multiset(entries)
      ensures FindKey(s.journal, key) == Some(k)
      ensures Orderly(entries)
    {
      PermutedIsOrderly(s.journal[k], s.ledger, entries);
    }
  }

  /** Entries that may be posted as far as they themselves tell. */
  predicate Orderly(entries: seq<Entry>) {
    && |entries| >= 2 && (forall e <- entries :: 0 < e.amount)
    && Sum(entries, Directed(Debit)) == Sum(entries, Directed(Credit))
  }

  lemma PermutedIsOrderly(t: Transaction, ledger: map<LedgerId, LedgerAccount>, entries: seq<Entry>)
    requires TxOk(t, ledger) && multiset(t.entries) == multiset(entries)
    ensures Orderly(entries)
  {
    hide Sum, Directed;
    assert |multiset(entries)| == |entries|;
    forall e <- entries ensures 0 < e.amount {
      assert e in multiset(entries);
    }
    TransferBalanced(t.entries[0].account, t.entries[1].account, t.entries[0].amount, Debit);
    TransferBalanced(t.entries[0].account, t.entries[1].account, t.entries[0].amount, Credit);
    SumPermuted(t.entries, entries, Directed(Debit));
    SumPermuted(t.entries, entries, Directed(Credit));
  }

  /** What a settlement that goes through changes: the hold is settled, the debt grows by
      the settled amount, the exposure by what that takes beyond the hold, and one transfer
      from the card's mirror to the merchants is posted. Nothing else changes. */
  lemma SettlementEffect(s: State, rrn: Rrn, amount: int, s': State, r: Response)
    requires Valid(s) && (s', r) == Settle(s, rrn, amount) && r.SettlementPosted? && FindHold(s.holds, rrn, true).Some?
    ensures var i := FindHold(s.holds, rrn, true).value;
      var a := s.holds[i].account;
      && a in s.accounts && a in s'.accounts
      && s'.holds == s.holds[i := s.holds[i].(status := Settled)]
      && s'.accounts == s.accounts[a := s.accounts[a].(cleared := s.accounts[a].cleared + amount,
                                                       available := s'.accounts[a].available)]
      && Exposure(s', a) == Exposure(s, a) + amount - s.holds[i].amount
      && s'.journal == s.journal + [Transaction(SettlementKey(rrn), s.holds[i].currency,
                                                Transfer(Mirror(a), MerchantClearing(s.accounts[a].currency), amount),
                                                None)]
      && s'.statements == s.statements + [StatementLine(a, Some(i), |s.journal|, -amount)]
      && r == SettlementPosted(s'.accounts[a].cleared, s'.accounts[a].available) && s'.cards == s.cards
  {
    hide Valid, Settle, Charged, Prepared, Recalculated, LineOk, TxOk;
    var i := SettleIsCharge(s, rrn, amount);
    PreparedAccounts(s, s.holds[i].account);
    PreparedIsLedgerOnly(s, s.holds[i].account);
    var p := Prepared(s, s.holds[i].account);
    ChargeIsFresh(p, i, amount);
    ChargeIsPosting(p, i, amount);
    ReleaseHold(p, i, Settled);
    SettlementAnswers(s, rrn, amount);
  }

  lemma PreparedIsLedgerOnly(s: State, a: CardAccountId)
    requires Valid(s) && a in s.accounts
    requires EnsureMirror(s.ledger, a, s.accounts[a]).Some?
    requires EnsureSystem(EnsureMirror(s.ledger, a, s.accounts[a]).value,
                          MerchantClearing(s.accounts[a].currency), s.accounts[a].currency).Some?
    ensures Prepared(s, a) == s.(ledger := Prepared(s, a).ledger)
  {
    hide Valid, EnsureMirror, EnsureSystem;
  }

  lemma SettlementAnswers(s: State, rrn: Rrn, amount: int)
    requires Settle(s, rrn, amount).1.SettlementPosted? && FindHold(s.holds, rrn, true).Some?
    ensures var a := s.holds[FindHold(s.holds, rrn, true).value].account;
      var (s', r) := Settle(s, rrn, amount);
      a in s'.accounts && r == SettlementPosted(s'.accounts[a].cleared, s'.accounts[a].available)
  {
    hide Post, Recalculated, EnsureMirror, EnsureSystem, FindHold;
  }

  /** The mirror of a card account as it is after a change of the account. */
  function MirrorRow(s: State, a: CardAccountId, account: CardAccount): LedgerAccount {
    LedgerAccount(if Mirror(a) in s.ledger then s.ledger[Mirror(a)].owner else Some(account.owner),
                  account.currency, account.active, account.cleared, account.available, account.limit)
  }

  /** A ledger with account `id`, as it was or new with no balance. */
  function With(ledger: map<LedgerId, LedgerAccount>, id: LedgerId, currency: Currency): map<LedgerId, LedgerAccount> {
    if id in ledger then ledger else ledger[id := LedgerAccount(None, currency, true, 0, 0, 0)]
  }

  /** Of the ledger a settlement changes the card's mirror alone, which follows the account,
      and adds the clearing account if it is missing. */
  lemma SettlementLedger(s: State, rrn: Rrn, amount: int, s': State, i: nat)
    requires Valid(s) && s' == Settle(s, rrn, amount).0 && Settle(s, rrn, amount).1.SettlementPosted?
    requires FindHold(s.holds, rrn, true) == Some(i)
    ensures var a := s.holds[i].account;
      && a in s.accounts && a in s'.accounts
      && s'.ledger == With(s.ledger, MerchantClearing(s.accounts[a].currency), s.accounts[a].currency)
                      [Mirror(a) := MirrorRow(s, a, s'.accounts[a])]
  {
    hide Valid, Settle, Charged, Recalculated, LineOk, TxOk;
    var j := SettleIsCharge(s, rrn, amount);
    var a := s.holds[i].account;
    PreparedAccounts(s, a);
    var p := Prepared(s, a);
    ChargeIsFresh(p, i, amount);
    ChargeIsPosting(p, i, amount);
    var c := s.accounts[a].currency;
    assert p.ledger == With(s.ledger, MerchantClearing(c), c)[Mirror(a) := p.ledger[Mirror(a)]];
    assert p.ledger[Mirror(a)] == MirrorRow(s, a, s.accounts[a]);
  }

  /** All that a payment that goes through changes: deposit, debt and mirror follow the
      amount, one transaction and one line are added, and the stored answer tells the
      balances as they are then. */
  lemma PaymentEffect(s: State, user: User, request: PaymentRequest, key: string, digest: Digest, s': State,
                      r: Response)
    requires Valid(s) && (s', r) == Pay(s, user, request, key, digest) && r.PaymentPosted?
    ensures var PaymentRequest(number, a, amount, currency) := request; var source := Deposit(number);
      && source in s.ledger && a in s.accounts
      && var cleared := s.accounts[a].cleared - amount;
      var account := s.accounts[a].(cleared := cleared,
                                    available := AvailableCredit(s.accounts[a].limit, cleared, Held(s.holds, a)));
      && r.result == PaymentResult(|s.journal|, amount, s.ledger[source].cleared - amount, cleared, account.available)
      && s' == State(
           s.cards, s.accounts[a := account], s.holds,
           s.statements + [StatementLine(a, None, |s.journal|, amount)],
           s.journal + [Transaction(PaymentKey(digest), currency, Transfer(source, Mirror(a), amount),
                                    Some(Receipt(request, r.result)))],
           s.ledger[source := s.ledger[source].(cleared := s.ledger[source].cleared - amount)]
                   [Mirror(a) := MirrorRow(s, a, account)])
  {
    hide Valid, Pay, LineOk, PendingTotal, TxOk;
    PayIsPosting(s, user, request, key, digest);
    PaymentNeeds(s, user, request, key, digest);
    hide Payable;
    CreditIs(s', request.card);
  }

  lemma CreditIs(s: State, a: CardAccountId)
    requires a in s.accounts && Recalculated(s.holds, a, s.accounts[a]) == Some(s.accounts[a])
    ensures s.accounts[a].available == AvailableCredit(s.accounts[a].limit, s.accounts[a].cleared, Held(s.holds, a))
  {
  }

  /** Exactly when a reversal goes through, and what it changes: the hold is reversed, its
      amount leaves the exposure of its account, and only the cached credit follows. */
  lemma ReversalDecision(s: State, rrn: Rrn)
    requires Valid(s)
    ensures Reverse(s, rrn).1.HoldReversed? <==> FindHold(s.holds, rrn, true).Some?
    ensures FindHold(s.holds, rrn, true).None? ==> Reverse(s, rrn) == (s, Failed)
    ensures FindHold(s.holds, rrn, true).Some? ==>
      var i := FindHold(s.holds, rrn, true).value;
      var a := s.holds[i].account;
      var (s', r) := Reverse(s, rrn);
      && a in s.accounts && a in s'.accounts
      && s' == s.(holds := s.holds[i := s.holds[i].(status := Reversed)],
                  accounts := s.accounts[a := s.accounts[a].(available := s'.accounts[a].available)])
      && Exposure(s', a) == Exposure(s, a) - s.holds[i].amount
      && s'.accounts[a].available == AvailableCredit(s.accounts[a].limit, s.accounts[a].cleared,
                                                     Held(s.holds, a) - s.holds[i].amount)
      && r == HoldReversed(s'.accounts[a].available)
  {
    hide JournalOk, BalancesOk, StatementsOk, PendingTotal;
    if FindHold(s.holds, rrn, true).Some? {
      var i := FindHold(s.holds, rrn, true).value;
      var a := s.holds[i].account;
      assert s.holds[i] in s.holds;
      var p := s.(holds := s.holds[i := s.holds[i].(status := Reversed)]);
      ReleaseHold(s, i, Reversed);
      HeldBounds(s, a);
      RecalculationSucceeds(p, a, s.accounts[a], Held(s.holds, a));
    }
  }

  /** An opened deposit holds what it was opened with, and nobody else's balance moved. */
  lemma OpeningEffect(s: State, user: User, number: nat, initial: nat, key: Option<string>, uuid: Uuid)
    requires Valid(s) && Open(s, user, number, initial, key, uuid).1.DepositOpened?
    ensures var s' := Open(s, user, number, initial, key, uuid).0; var id := Deposit(number);
      && s' == s.(journal := s'.journal, ledger := s'.ledger)
      && s'.ledger == (if initial == 0 then s.ledger
                       else var system := ExternalFunding(USD);
                         With(s.ledger, system, USD)[system :=
                           With(s.ledger, system, USD)[system].(
                             cleared := With(s.ledger, system, USD)[system].cleared + initial)])
                      [id := LedgerAccount(Some(user), USD, true, initial, 0, 0)]
      && id !in s.ledger && id in s'.ledger && s'.ledger[id] == LedgerAccount(Some(user), USD, true, initial, 0, 0)
      && (forall k <- s.ledger :: k != ExternalFunding(USD) ==> k in s'.ledger && s'.ledger[k] == s.ledger[k])
      && s'.journal == s.journal + (if initial == 0 then [] else
           [Transaction(FundingKey(key, uuid), USD, Transfer(ExternalFunding(USD), id, initial), None)])
  {
    hide HoldsOk, CreditOk, BalancesOk, StatementsOk, Post;
    if initial > 0 {
      OpenPosts(s, user, number, initial, key, uuid);
    }
  }
}
