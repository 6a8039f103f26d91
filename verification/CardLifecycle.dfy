/** The life of a hold over a run: recorded once, settled or reversed at most once,
    posted exactly when settled; and what replaying an authorisation does. */
module CardLifecycle {
  import opened Options
  import opened Sums
  import opened Text
  import opened CardState
  import opened CardInvariants
  import opened CardPreservation
  import opened CardTheorems

  // ------------------------------------------------------------- append-only

  /** A hold keeps everything but its status, and that changes only by settling or
      reversing an active hold. */
  predicate Progress(h: Hold, h': Hold) {
    && h' == h.(status := h'.status)
    && (h'.status != h.status ==> h.Active() && (h'.status == Settled || h'.status == Reversed))
  }

  /** From `s` to `s'` rows are only added, and holds only progress. */
  ghost predicate Grows(s: State, s': State) {
    && |s.holds| <= |s'.holds|
    && (forall i :: 0 <= i < |s.holds| ==> Progress(s.holds[i], s'.holds[i]))
    && s.journal <= s'.journal
    && s.statements <= s'.statements
    && s'.cards == s.cards
  }

  lemma GrowsFurther(s: State, t: State, u: State)
    requires Grows(s, t) && Grows(t, u)
    ensures Grows(s, u)
  {
  }

  lemma SettleGrows(s: State, rrn: Rrn, amount: int)
    requires Valid(s)
    ensures Grows(s, Settle(s, rrn, amount).0)
  {
    hide Valid, Settle, Charged, Prepared, Recalculated, LineOk;
    FailureChangesNothing(s, OpSettle(rrn, amount));
    if Settle(s, rrn, amount).1.SettlementPosted? {
      var i := SettleIsCharge(s, rrn, amount);
      PreparedAccounts(s, s.holds[i].account);
      var p := Prepared(s, s.holds[i].account);
      ChargeIsFresh(p, i, amount);
      ChargeIsPosting(p, i, amount);
      PreparedCards(s, s.holds[i].account);
    }
  }

  lemma PreparedCards(s: State, a: CardAccountId)
    requires Valid(s) && a in s.accounts
    ensures EnsureMirror(s.ledger, a, s.accounts[a]).Some?
    ensures EnsureSystem(EnsureMirror(s.ledger, a, s.accounts[a]).value,
                         MerchantClearing(s.accounts[a].currency), s.accounts[a].currency).Some?
    ensures Prepared(s, a).cards == s.cards
  {
    PreparedKeepsValid(s, a);
  }

  lemma PayGrows(s: State, user: User, request: PaymentRequest, key: string, digest: Digest)
    ensures Grows(s, Pay(s, user, request, key, digest).0)
  {
    hide Pay, LineOk, Recalculated;
    FailureChangesNothing(s, OpPay(user, request, key, digest));
    if Pay(s, user, request, key, digest).1.PaymentPosted? {
      PayIsPosting(s, user, request, key, digest);
    }
  }

  lemma StepGrows(s: State, op: Op)
    requires Valid(s)
    ensures Grows(s, Step(s, op).0)
  {
    hide Valid, Settle, Pay, Recalculated, Post, EnsureSystem;
    match op
    case OpSettle(rrn, amount) => SettleGrows(s, rrn, amount);
    case OpPay(user, request, key, digest) => PayGrows(s, user, request, key, digest);
    case _ =>
  }

  lemma {:induction false} RunGrows(s: State, ops: seq<Op>)
    requires Valid(s)
    ensures Grows(s, Run(s, ops))
  {
    hide Valid, Step, Grows;
    if ops != [] {
      var earlier := ops[..|ops| - 1];
      RunGrows(s, earlier);
      RunKeepsValid(s, earlier);
      StepGrows(Run(s, earlier), ops[|ops| - 1]);
      GrowsFurther(s, Run(s, earlier), Run(s, ops));
    } else {
      GrowsSelf(s);
    }
  }

  lemma GrowsSelf(s: State)
    ensures Grows(s, s)
  {
  }

  /** A settled, reversed or declined hold never changes again. */
  lemma TerminalForever(s: State, s': State, i: nat)
    requires Valid(s) && LeadsTo(s, s') && i < |s.holds| && !s.holds[i].Active()
    ensures i < |s'.holds| && s'.holds[i] == s.holds[i]
  {
    hide Valid, Run;
    var ops :| s' == Run(s, ops);
    RunGrows(s, ops);
    assert Progress(s.holds[i], s'.holds[i]);
  }

  // ---------------------------------------------------- settled means posted

  lemma SettlementKeyInjective(a: Rrn, b: Rrn)
    requires SettlementKey(a) == SettlementKey(b)
    ensures a == b
  {
    SamePrefix("card-settlement:", a, b);
  }

  /** Settlements of different RRNs, payments under different digests and openings without a
      key text never meet in the key column. */
  lemma KeysAreApart(rrn: Rrn, rrn': Rrn, digest: Digest, digest': Digest, uuid: Uuid, uuid': Uuid,
                     empty: Option<string>)
    requires empty.None? || empty.value == ""
    ensures SettlementKey(rrn) == SettlementKey(rrn') <==> rrn == rrn'
    ensures PaymentKey(digest) == PaymentKey(digest') <==> digest == digest'
    ensures FundingKey(empty, uuid) == FundingKey(empty, uuid') <==> uuid == uuid'
    ensures SettlementKey(rrn) != PaymentKey(digest)
    ensures FundingKey(empty, uuid) != SettlementKey(rrn) && FundingKey(empty, uuid) != PaymentKey(digest)
  {
    if SettlementKey(rrn) == SettlementKey(rrn') {
      SettlementKeyInjective(rrn, rrn');
    }
    if PaymentKey(digest) == PaymentKey(digest') {
      SamePrefix("bill-payment:", digest, digest');
    }
    if FundingKey(empty, uuid) == FundingKey(empty, uuid') {
      SamePrefix("IDEMP-DEP-", uuid, uuid');
    }
    assert FundingKey(empty, uuid)[0] == 'I' && SettlementKey(rrn)[0] == 'c' && PaymentKey(digest)[0] == 'b';
  }

  lemma SamePrefix(prefix: string, a: string, b: string)
    requires prefix + a == prefix + b
    ensures a == b
  {
    assert a == (prefix + a)[|prefix|..] && b == (prefix + b)[|prefix|..];
  }

  lemma SettlementIsNoPayment(rrn: Rrn)
    ensures !IsPaymentKey(SettlementKey(rrn))
  {
    assert SettlementKey(rrn)[0] == 'c';
  }

  /** A hold with a statement line has one to name. */
  lemma {:induction false} LineExists(lines: seq<StatementLine>, i: nat)
    ensures Sum(lines, ForHold(i)) != 0 ==> exists l <- lines :: l.hold == Some(i)
  {
    if lines != [] {
      var n := |lines| - 1;
      LineExists(lines[..n], i);
      if Sum(lines[..n], ForHold(i)) != 0 {
        var l :| l in lines[..n] && l.hold == Some(i);
        assert l in lines;
      } else if lines[n].hold == Some(i) {
        assert lines[n] in lines;
      }
    }
  }

  /** The card postings made for the settlement of an RRN. */
  function SettledUnder(rrn: Rrn): Transaction -> int {
    (t: Transaction) => if t.key == SettlementKey(rrn) && OnCard(t) then 1 else 0
  }

  /** The charge line of a settled hold and the posting it stands for. */
  lemma ChargeOf(s: State, i: nat) returns (l: StatementLine)
    requires Valid(s) && i < |s.holds| && s.holds[i].status == Settled
    ensures l in s.statements && l.hold == Some(i) && l.tx < |s.journal|
    ensures s.journal[l.tx].key == SettlementKey(s.holds[i].rrn) && OnCard(s.journal[l.tx])
  {
    hide HoldsOk, CreditOk, JournalOk, BalancesOk;
    LineExists(s.statements, i);
    l :| l in s.statements && l.hold == Some(i);
    assert LineOk(s, l);
    assert s.journal[l.tx].entries[0] in s.journal[l.tx].entries;
  }

  /** Conversely a card posting under a settlement key belongs to a settled hold. */
  lemma PostingHasHold(s: State, k: nat, i: nat)
    requires Valid(s) && k < |s.journal| && OnCard(s.journal[k])
    requires i < |s.holds| && s.journal[k].key == SettlementKey(s.holds[i].rrn)
    ensures s.holds[i].status == Settled
  {
    hide CreditOk, JournalOk, BalancesOk, OnCard;
    var l :| l in s.statements && l.tx == k;
    assert LineOk(s, l);
    SettlementIsNoPayment(s.holds[i].rrn);
    SettlementKeyInjective(s.holds[l.hold.value].rrn, s.holds[i].rrn);
  }

  lemma {:induction false} CountUnique(journal: seq<Transaction>, rrn: Rrn)
    requires forall i, j :: 0 <= i < j < |journal| ==> journal[i].key != journal[j].key
    ensures Sum(journal, SettledUnder(rrn)) <= 1
    ensures Sum(journal, SettledUnder(rrn))
            == if exists t <- journal :: t.key == SettlementKey(rrn) && OnCard(t) then 1 else 0
  {
    hide OnCard;
    if journal != [] {
      var n := |journal| - 1;
      CountUnique(journal[..n], rrn);
      assert journal == journal[..n] + [journal[n]];
    }
  }

  /** Settled holds have exactly one charge line and one card posting under their
      settlement key; every other hold has none. */
  lemma SettledExactlyOnce(s: State, i: nat)
    requires Valid(s) && i < |s.holds|
    ensures Sum(s.statements, ForHold(i)) == Sum(s.journal, SettledUnder(s.holds[i].rrn))
            == if s.holds[i].status == Settled then 1 else 0
  {
    hide HoldsOk, CreditOk, BalancesOk, OnCard, LineOk;
    var rrn := s.holds[i].rrn;
    CountUnique(s.journal, rrn);
    if s.holds[i].status == Settled {
      var l := ChargeOf(s, i);
      assert s.journal[l.tx] in s.journal;
    } else if t :| t in s.journal && t.key == SettlementKey(rrn) && OnCard(t) {
      var k: nat :| k < |s.journal| && s.journal[k] == t;
      PostingHasHold(s, k, i);
      assert false;
    }
  }

  /** Over every run from a reachable state: one hold per RRN, holds only progress, rows
      are only added, and each settled hold was charged exactly once. */
  lemma HoldLifecycle(s: State, s': State)
    requires Reachable(s) && LeadsTo(s, s')
    ensures Grows(s, s')
    ensures forall i, j :: 0 <= i < j < |s'.holds| ==> s'.holds[i].rrn != s'.holds[j].rrn
    ensures forall i :: 0 <= i < |s'.holds| ==>
              Sum(s'.statements, ForHold(i)) == Sum(s'.journal, SettledUnder(s'.holds[i].rrn))
              == if s'.holds[i].status == Settled then 1 else 0
  {
    hide CreditOk, JournalOk, BalancesOk, StatementsOk, Grows, Run, Reachable;
    var ops :| s' == Run(s, ops);
    ReachableValid(s);
    RunKeepsValid(s, ops);
    RunGrows(s, ops);
    forall i: nat | i < |s'.holds|
      ensures Sum(s'.statements, ForHold(i)) == Sum(s'.journal, SettledUnder(s'.holds[i].rrn))
              == if s'.holds[i].status == Settled then 1 else 0
    {
      SettledExactlyOnce(s', i);
    }
  }

  // ------------------------------------------------- keys that deposits occupy

  /** The transaction a funded opening posts. */
  predicate IsFunding(t: Transaction) {
    && |t.entries| == 2 && t.entries[1].account.Deposit?
    && t.entries == Transfer(ExternalFunding(t.currency), t.entries[1].account, t.entries[1].amount)
  }

  /** Whatever is posted later, a key goes on standing for the same transaction. */
  lemma KeyStays(s: State, s': State, k: nat)
    requires Valid(s) && LeadsTo(s, s') && k < |s.journal|
    ensures Valid(s') && k < |s'.journal| && FindKey(s'.journal, s.journal[k].key) == Some(k)
    ensures s'.journal[k] == s.journal[k]
  {
    hide HoldsOk, CreditOk, BalancesOk, StatementsOk, TxOk, Run;
    var ops :| s' == Run(s, ops);
    RunGrows(s, ops);
    RunKeepsValid(s, ops);
  }

  /** An active hold that cannot be settled because of its key never will be, and it is
      always a deposit opened under that text that stands in the way. */
  lemma StuckForever(s: State, i: nat, k: nat, s': State, amount: int)
    requires Valid(s) && i < |s.holds| && s.holds[i].Active()
    requires k < |s.journal| && s.journal[k].key == SettlementKey(s.holds[i].rrn)
    requires LeadsTo(s, s')
    ensures IsFunding(s.journal[k])
    ensures Settle(s', s.holds[i].rrn, amount) == (s', Failed)
  {
    hide Valid, Settle;
    KeyStays(s, s', k);
    SettlementDecision(s', s.holds[i].rrn, amount);
    FailureChangesNothing(s', OpSettle(s.holds[i].rrn, amount));
    if OnCard(s.journal[k]) {
      PostingHasHold(s, k, i);
      assert false;
    }
    OffCardIsFunding(s, k);
  }

  /** What touches no card is the funding of a deposit. */
  lemma OffCardIsFunding(s: State, k: nat)
    requires Valid(s) && k < |s.journal| && !OnCard(s.journal[k])
    ensures IsFunding(s.journal[k]) && s.journal[k].receipt.None?
  {
    hide HoldsOk, CreditOk, StatementsOk;
    var t := s.journal[k];
    assert TxOk(t, s.ledger);
    assert t.entries[0] in t.entries && t.entries[1] in t.entries;
    assert BalanceOk(s, t.entries[0].account);
  }

  /** A payment key without a stored answer stands for a deposit opened under its text. */
  lemma PaymentKeyStandsFor(s: State, k: nat)
    requires Valid(s) && k < |s.journal| && IsPaymentKey(s.journal[k].key) && s.journal[k].receipt.None?
    ensures IsFunding(s.journal[k])
  {
    hide HoldsOk, CreditOk, BalancesOk, IsFunding;
    if OnCard(s.journal[k]) {
      var l :| l in s.statements && l.tx == k;
      assert LineOk(s, l);
      SettlementIsNoPayment(s.holds[l.hold.value].rrn);
      assert false;
    }
    OffCardIsFunding(s, k);
  }

  /** Somebody's funded deposit, opened with `key` as its key text, leads from `s` to `s1`. */
  ghost predicate FundedUnder(s: State, key: TxKey, s1: State) {
    exists user, number, initial: nat, uuid ::
      && 0 < initial && Open(s, user, number, initial, Some(key), uuid).0 == s1
      && Open(s, user, number, initial, Some(key), uuid).1.DepositOpened?
  }

  /** From then on the key stands for a transaction without a stored answer. */
  lemma FundingTakesKey(s: State, key: TxKey, s1: State, s': State)
    requires Valid(s) && key != "" && FundedUnder(s, key, s1) && LeadsTo(s1, s')
    ensures Valid(s') && FindKey(s'.journal, key) == Some(|s.journal|) && s'.journal[|s.journal|].receipt.None?
  {
    hide Valid, Open;
    var user, number, initial: nat, uuid :|
      && 0 < initial && Open(s, user, number, initial, Some(key), uuid).0 == s1
      && Open(s, user, number, initial, Some(key), uuid).1.DepositOpened?;
    OpenKeepsValid(s, user, number, initial, Some(key), uuid);
    OpeningEffect(s, user, number, initial, Some(key), uuid);
    KeyStays(s1, s', |s.journal|);
  }

  /** After a funded deposit was opened under the text of a hold's settlement key, which its
      caller chooses freely, no settlement of that RRN ever goes through. */
  lemma DepositKeyBlocksSettlement(s: State, rrn: Rrn, s1: State, s': State, amount: int)
    requires Valid(s) && FundedUnder(s, SettlementKey(rrn), s1) && LeadsTo(s1, s')
    ensures Settle(s', rrn, amount) == (s', Failed)
  {
    hide Valid, Settle, FundedUnder;
    FundingTakesKey(s, SettlementKey(rrn), s1, s');
    SettlementDecision(s', rrn, amount);
    FailureChangesNothing(s', OpSettle(rrn, amount));
  }

  /** After a funded deposit was opened under the digest text of a payment, no payment under
      that user and Idempotency-Key is ever made; every attempt is answered by an error. */
  lemma DepositKeyBlocksPayment(s: State, digest: Digest, s1: State, s': State, payer: User, request: PaymentRequest,
                                key: string)
    requires Valid(s) && FundedUnder(s, PaymentKey(digest), s1) && LeadsTo(s1, s')
    ensures Pay(s', payer, request, key, digest) == (s', Failed)
  {
    hide Valid, FundedUnder, Book, EnsureMirror;
    FundingTakesKey(s, PaymentKey(digest), s1, s');
  }

  /** Somebody's payment of `request` under `digest` leads from `s` to `s1` with `result`. */
  ghost predicate PaidUnder(s: State, digest: Digest, request: PaymentRequest, s1: State, result: PaymentResult) {
    exists user, key :: Pay(s, user, request, key, digest) == (s1, PaymentPosted(result))
  }

  /** A payment is made once: at any later time the same request under the same digest is
      answered with the stored result, another one with an error, and nothing moves. */
  lemma PaidOnce(s: State, digest: Digest, request: PaymentRequest, s1: State, result: PaymentResult, s': State,
                 payer: User, request': PaymentRequest, key: string)
    requires Valid(s) && PaidUnder(s, digest, request, s1, result) && LeadsTo(s1, s')
    requires 0 < request'.amount <= MAX_MINOR && !IsBlank(key) && |key| <= 128
    ensures Pay(s', payer, request', key, digest)
            == (s', if request' == request then PaymentReplayed(result) else Failed)
  {
    hide Valid, Pay, IsBlank;
    var user, key1 :| Pay(s, user, request, key1, digest) == (s1, PaymentPosted(result));
    PaysUnderItsKey(s, user, request, key1, digest);
    PayKeepsValid(s, user, request, key1, digest);
    KeyStays(s1, s', |s.journal|);
    PayFindsKey(s', payer, request', key, digest, |s.journal|);
  }

  lemma PaysUnderItsKey(s: State, user: User, request: PaymentRequest, key: string, digest: Digest)
    requires Pay(s, user, request, key, digest).1.PaymentPosted?
    ensures var (s', r) := Pay(s, user, request, key, digest);
      s'.journal == s.journal + [PayTx(request, digest, r.result)]
  {
    hide Pay, LineOk, TxOk, Recalculated;
    PayIsPosting(s, user, request, key, digest);
  }

  /** What stands under the digest of a well-formed request decides its answer. */
  lemma PayFindsKey(s: State, payer: User, request: PaymentRequest, key: string, digest: Digest, k: nat)
    requires FindKey(s.journal, PaymentKey(digest)) == Some(k)
    requires 0 < request.amount <= MAX_MINOR && !IsBlank(key) && |key| <= 128
    ensures var receipt := s.journal[k].receipt;
      Pay(s, payer, request, key, digest)
      == (s, if receipt.Some? && receipt.value.request == request then PaymentReplayed(receipt.value.result)
          else Failed)
  {
    hide Book, EnsureMirror, FindKey, IsBlank;
  }

  /** A payment key that stands for no payment stands for a deposit's funding, and then no
      payment is ever made under that digest. */
  lemma StuckPaymentForever(s: State, k: nat, digest: Digest, s': State, payer: User, request: PaymentRequest,
                            key: string)
    requires Valid(s) && LeadsTo(s, s')
    requires k < |s.journal| && s.journal[k].key == PaymentKey(digest) && s.journal[k].receipt.None?
    ensures IsFunding(s.journal[k])
    ensures Pay(s', payer, request, key, digest) == (s', Failed)
  {
    hide Valid, IsFunding, Book, EnsureMirror;
    PaymentKeyStandsFor(s, k);
    KeyStays(s, s', k);
  }

  /** A payment that would go through fails when a deposit is opened under its digest text
      first; the opening itself goes through. */
  lemma OpeningStopsPayment(s: State, user: User, request: PaymentRequest, key: string, digest: Digest, opener: User,
                            number: nat, initial: nat, uuid: Uuid)
    requires Valid(s) && Pay(s, user, request, key, digest).1.PaymentPosted?
    requires Deposit(number) !in s.ledger && 0 < initial <= MAX_MINOR
    ensures var (s', answer) := Open(s, opener, number, initial, Some(PaymentKey(digest)), uuid);
      answer.DepositOpened? && Pay(s', user, request, key, digest) == (s', Failed)
  {
    hide Valid, Pay, Open, Run;
    PaymentNeeds(s, user, request, key, digest);
    OpenDecision(s, opener, number, initial, Some(PaymentKey(digest)), uuid);
    var s' := Open(s, opener, number, initial, Some(PaymentKey(digest)), uuid).0;
    assert FundedUnder(s, PaymentKey(digest), s');
    assert Run(s', []) == s' by {
      RunOfNothing(s');
    }
    assert LeadsTo(s', s');
    DepositKeyBlocksPayment(s, digest, s', s', user, request, key);
  }

  lemma RunOfNothing(s: State)
    ensures Run(s, []) == s
  {
  }

  /** A settlement leaves the deposits alone. */
  lemma SettleKeepsDeposits(s: State, rrn: Rrn, amount: int)
    requires Valid(s)
    ensures var s' := Settle(s, rrn, amount).0;
      && (forall id <- s.ledger :: id.Deposit? ==> id in s'.ledger && s'.ledger[id] == s.ledger[id])
      && (forall id <- s'.ledger :: id.Deposit? ==> id in s.ledger)
  {
    hide Valid, Settle, Charged, Prepared, Recalculated, LineOk, TxOk;
    FailureChangesNothing(s, OpSettle(rrn, amount));
    if Settle(s, rrn, amount).1.SettlementPosted? {
      var i := SettleIsCharge(s, rrn, amount);
      PreparedAccounts(s, s.holds[i].account);
      var p := Prepared(s, s.holds[i].account);
      PreparedDeposits(s, s.holds[i].account);
      ChargeIsFresh(p, i, amount);
      ChargeIsPosting(p, i, amount);
    }
  }

  lemma PreparedDeposits(s: State, a: CardAccountId)
    requires Valid(s) && a in s.accounts
    requires EnsureMirror(s.ledger, a, s.accounts[a]).Some?
    requires EnsureSystem(EnsureMirror(s.ledger, a, s.accounts[a]).value,
                          MerchantClearing(s.accounts[a].currency), s.accounts[a].currency).Some?
    ensures var p := Prepared(s, a);
      && (forall id <- s.ledger :: id.Deposit? ==> id in p.ledger && p.ledger[id] == s.ledger[id])
      && (forall id <- p.ledger :: id.Deposit? ==> id in s.ledger)
  {
    hide Valid;
  }

  lemma OpeningAddsOne(s: State, user: User, number: nat, initial: nat, key: Option<string>, uuid: Uuid)
    ensures forall id <- Open(s, user, number, initial, key, uuid).0.ledger ::
              id in s.ledger || id == Deposit(number) || id == ExternalFunding(USD)
  {
    hide Post;
  }

  lemma KeysDiffer(uuid: Uuid, rrn: Rrn, digest: Digest)
    ensures FundingKey(None, uuid) != SettlementKey(rrn) && FundingKey(None, uuid) != PaymentKey(digest)
    ensures SettlementKey(rrn) != PaymentKey(digest)
    ensures |FundingKey(None, uuid)| <= KEY_WIDTH
  {
    assert FundingKey(None, uuid)[0] == 'I' && SettlementKey(rrn)[0] == 'c' && PaymentKey(digest)[0] == 'b';
  }

  /** A user with one card account opens a funded deposit, charges the card with as much, and
      the charge is settled: then there is a debt and the money to pay it. */
  lemma ChargedAndSettled(user: User, token: string, amount: int, rrn: Rrn, uuid: Uuid, s0: State, s1: State, s2: State,
                          s3: State)
    requires 0 < amount <= MAX_MINOR
    requires s0 == State(map[token := IssuedCard(0, true)], map[0 := CardAccount(user, USD, true, amount, 0, amount)],
                         [], [], [], map[])
    requires s1 == Open(s0, user, 0, amount, None, uuid).0
    requires s2 == Authorize(s1, token, rrn, amount, false).0
    requires s3 == Settle(s2, rrn, amount).0
    ensures Genesis(s0) && Valid(s3)
    ensures Deposit(0) in s3.ledger && s3.ledger[Deposit(0)] == LedgerAccount(Some(user), USD, true, amount, 0, 0)
    ensures Deposit(1) !in s3.ledger && 0 in s3.accounts
    ensures s3.accounts[0] == CardAccount(user, USD, true, amount, amount, s3.accounts[0].available)
    ensures |s3.journal| == 2
    ensures s3.journal[0].key == FundingKey(None, uuid) && s3.journal[1].key == SettlementKey(rrn)
  {
    hide Valid, Settle, Open, Authorize, Run;
    GenesisValid(s0);
    KeysDiffer(uuid, rrn, seq(64, i => '0'));
    hide FundingKey, SettlementKey, PaymentKey, Held;
    OpenDecision(s0, user, 0, amount, None, uuid);
    OpeningEffect(s0, user, 0, amount, None, uuid);
    OpeningAddsOne(s0, user, 0, amount, None, uuid);
    OpenKeepsValid(s0, user, 0, amount, None, uuid);
    GrantedAlone(s1, token, rrn, amount);
    SettlementDecision(s2, rrn, amount);
    SettlementEffect(s2, rrn, amount, s3, Settle(s2, rrn, amount).1);
    SettleKeepsDeposits(s2, rrn, amount);
    SettleKeepsValid(s2, rrn, amount);
  }

  /** This too happens: the payment of that debt goes through, unless a deposit of one minor
      unit is opened under its digest text first. */
  lemma StuckPaymentExists(user: User, token: string, amount: int, rrn: Rrn, uuid: Uuid, digest: Digest, s0: State,
                           s1: State, s2: State, s3: State)
    requires 0 < amount <= MAX_MINOR
    requires s0 == State(map[token := IssuedCard(0, true)], map[0 := CardAccount(user, USD, true, amount, 0, amount)],
                         [], [], [], map[])
    requires s1 == Open(s0, user, 0, amount, None, uuid).0
    requires s2 == Authorize(s1, token, rrn, amount, false).0
    requires s3 == Settle(s2, rrn, amount).0
    ensures Genesis(s0) && Valid(s3)
    ensures var request := PaymentRequest(0, 0, amount, USD);
      && Pay(s3, user, request, "k", digest).1.PaymentPosted?
      && var (s4, answer) := Open(s3, user, 1, 1, Some(PaymentKey(digest)), uuid);
      answer.DepositOpened? && Pay(s4, user, request, "k", digest) == (s4, Failed)
  {
    hide Valid, Settle, Open, Authorize, Pay, Run, Genesis;
    ChargedAndSettled(user, token, amount, rrn, uuid, s0, s1, s2, s3);
    KeysDiffer(uuid, rrn, digest);
    hide FundingKey, SettlementKey, PaymentKey, Held;
    NoKey(s3.journal, PaymentKey(digest));
    assert !IsBlank("k") by {
      assert "k"[0] in "k";
    }
    hide FindKey, IsBlank;
    var request := PaymentRequest(0, 0, amount, USD);
    assert Payable(s3, user, request, "k", digest);
    PaymentDecision(s3, user, request, "k", digest, Pay(s3, user, request, "k", digest).1);
    OpeningStopsPayment(s3, user, request, "k", digest, user, 1, 1, uuid);
  }

  lemma NoKey(journal: seq<Transaction>, key: TxKey)
    requires |journal| == 2 && journal[0].key != key && journal[1].key != key
    ensures FindKey(journal, key).None?
  {
    assert forall t <- journal :: t.key != key;
  }

  /** Both happen: with one card account of positive limit, opening a deposit of one minor
      unit under the settlement key leaves the hold authorised next stuck; without it the
      same hold is settled. */
  lemma StuckHoldExists(user: User, token: string, limit: int, rrn: Rrn, uuid: Uuid, s0: State)
    requires 0 < limit <= MAX_MINOR
    requires s0 == State(map[token := IssuedCard(0, true)], map[0 := CardAccount(user, USD, true, limit, 0, limit)],
                         [], [], [], map[])
    ensures Genesis(s0)
    ensures var (s1, answer) := Open(s0, user, 0, 1, Some(SettlementKey(rrn)), uuid);
      var (s2, granted) := Authorize(s1, token, rrn, limit, false);
      && answer.DepositOpened? && granted.AuthApproved? && |s2.holds| == 1 && s2.holds[0].Active()
      && Settle(s2, rrn, limit) == (s2, Failed)
    ensures var (s1, granted) := Authorize(s0, token, rrn, limit, false);
      granted.AuthApproved? && Settle(s1, rrn, limit).1.SettlementPosted?
  {
    hide Valid, Settle, Open, Authorize, Run;
    GenesisValid(s0);
    var s1 := Open(s0, user, 0, 1, Some(SettlementKey(rrn)), uuid).0;
    OpenDecision(s0, user, 0, 1, Some(SettlementKey(rrn)), uuid);
    OpeningEffect(s0, user, 0, 1, Some(SettlementKey(rrn)), uuid);
    OpenKeepsValid(s0, user, 0, 1, Some(SettlementKey(rrn)), uuid);
    GrantedAlone(s1, token, rrn, limit);
    var s2 := Authorize(s1, token, rrn, limit, false).0;
    assert LeadsTo(s1, s2) by {
      OneStep(s1, OpAuthorize(token, rrn, limit, false));
    }
    assert FundedUnder(s0, SettlementKey(rrn), s1);
    DepositKeyBlocksSettlement(s0, rrn, s1, s2, limit);
    GrantedAlone(s0, token, rrn, limit);
    SettlementDecision(Authorize(s0, token, rrn, limit, false).0, rrn, limit);
  }

  lemma OneStep(s: State, op: Op)
    ensures LeadsTo(s, Step(s, op).0)
  {
    hide Step;
    assert [op][..0] == [];
    assert Run(s, []) == s;
    assert Run(s, [op]) == Step(s, op).0;
  }

  /** The first hold on an account with its whole limit to spare. */
  lemma GrantedAlone(s: State, token: string, rrn: Rrn, amount: int)
    requires Valid(s) && s.holds == [] && token in s.cards && s.cards[token].usable
    requires s.cards[token].account in s.accounts
    requires var account := s.accounts[s.cards[token].account];
      account.active && account.currency == USD && account.cleared == 0 && 0 < amount <= account.limit <= MAX_MINOR
    ensures var (s1, r) := Authorize(s, token, rrn, amount, false);
      && Valid(s1) && r == AuthApproved(Pending)
      && s1.holds == [Hold(s.cards[token].account, amount, USD, Pending, rrn)]
      && s1.journal == s.journal && s1.ledger == s.ledger && s1.accounts.Keys == s.accounts.Keys
      && var a := s.cards[token].account;
      s1.accounts[a] == s.accounts[a].(available := s1.accounts[a].available)
  {
    hide Valid, PendingTotal;
    ApprovalDecision(s, token, rrn, amount, false);
    AuthorizeKeepsValid(s, token, rrn, amount, false);
  }

  // ------------------------------------------------------------------ replay

  lemma FindsTheHold(s: State, i: nat)
    requires Valid(s) && i < |s.holds|
    ensures FindHold(s.holds, s.holds[i].rrn, false) == Some(i)
  {
    assert s.holds[i] in s.holds;
  }

  /** Once a hold is recorded under an RRN, authorising it again, at any later time and
      with any other card or amount, changes nothing and answers with that hold's status. */
  lemma ReplayChangesNothing(s: State, i: nat, s': State, token: string, amount: int, flagged: bool)
    requires Valid(s) && i < |s.holds| && LeadsTo(s, s')
    ensures i < |s'.holds| && Progress(s.holds[i], s'.holds[i])
    ensures Authorize(s', token, s.holds[i].rrn, amount, flagged) == (s', AuthReplayed(s'.holds[i].status))
  {
    hide Valid, Run;
    var ops :| s' == Run(s, ops);
    RunGrows(s, ops);
    RunKeepsValid(s, ops);
    FindsTheHold(s', i);
  }

  /** The answer to a first authorisation stands: after a decline for want of funds every
      later authorisation of that RRN, with any card and amount, is answered by the recorded
      decline; after a grant by what has become of the hold. */
  lemma AnswerStands(s: State, token: string, rrn: Rrn, amount: int, flagged: bool, s1: State, r: Response, s': State,
                     token': string, amount': int, flagged': bool)
    requires Valid(s) && (s1, r) == Authorize(s, token, rrn, amount, flagged) && LeadsTo(s1, s')
    ensures r == AuthDeclined(InsufficientFunds) ==>
              Authorize(s', token', rrn, amount', flagged') == (s', AuthReplayed(Declined))
    ensures r.AuthApproved? ==>
              exists status :: status in {r.status, Settled, Reversed}
                && Authorize(s', token', rrn, amount', flagged') == (s', AuthReplayed(status))
  {
    hide Valid, Authorize, Run;
    AuthorizationEffect(s, token, rrn, amount, flagged, s1, r);
    if r == AuthDeclined(InsufficientFunds) || r.AuthApproved? {
      AuthorizeKeepsValid(s, token, rrn, amount, flagged);
      ReplayChangesNothing(s1, |s.holds|, s', token', amount', flagged');
    }
  }

  /** The two digits the network gets, from the state alone. */
  lemma NetworkAnswer(s: State, token: string, rrn: Rrn, amount: int, flagged: bool, r: Response)
    requires Valid(s) && r == Authorize(s, token, rrn, amount, flagged).1 && !r.Failed?
    ensures r.AuthReplayed? || r.AuthDeclined? || r.AuthApproved?
    ensures var unseen := forall h <- s.holds :: h.rrn != rrn;
      && (ActionCode(r) == "75" <==> unseen && (token in s.cards ==> !s.cards[token].usable))
      && (ActionCode(r) == "83" <==>
            && unseen && token in s.cards && s.cards[token].usable
            && (s.cards[token].account in s.accounts ==> !s.accounts[s.cards[token].account].active))
      && (ActionCode(r) == "51" <==>
            || (Chargeable(s, token, rrn) && amount > Headroom(s, s.cards[token].account))
            || exists h <- s.holds :: h.rrn == rrn && h.status != Pending)
      && (ActionCode(r) == "00" <==>
            || (Chargeable(s, token, rrn) && amount <= Headroom(s, s.cards[token].account))
            || exists h <- s.holds :: h.rrn == rrn && h.status == Pending)
  {
    hide Authorize, CreditOk, JournalOk, BalancesOk, StatementsOk, Headroom;
    AuthorizationAnswers(s, token, rrn, amount, flagged, r);
    assert forall h, o :: h in s.holds && o in s.holds && h.rrn == o.rrn ==> h == o;
  }

  /** What an authorisation that records a hold records, and what it answers. */
  lemma AuthorizeRecords(s: State, token: string, rrn: Rrn, amount: int, flagged: bool)
    requires |Authorize(s, token, rrn, amount, flagged).0.holds| > |s.holds|
    ensures var (s', r) := Authorize(s, token, rrn, amount, flagged);
      && |s'.holds| == |s.holds| + 1
      && var h := s'.holds[|s.holds|];
      && h.rrn == rrn && h.amount == amount
      && (if r.AuthApproved? then h.status == r.status == if flagged then Flagged else Pending
          else h.status == Declined && r == AuthDeclined(InsufficientFunds))
  {
    hide Recalculated, FindHold;
  }

  /** The answer of a replay right after the first one: the same action code, unless the
      hold was granted but flagged; then the first answer is "00" and the replay's "51". */
  lemma ReplayAnswer(s: State, token: string, rrn: Rrn, amount: int, flagged: bool, token': string, amount': int,
                     flagged': bool)
    requires Valid(s)
    requires |Authorize(s, token, rrn, amount, flagged).0.holds| > |s.holds|
    ensures var (s', first) := Authorize(s, token, rrn, amount, flagged);
      var (s'', second) := Authorize(s', token', rrn, amount', flagged');
      && s'' == s' && second.AuthReplayed? && (first.AuthApproved? || first.AuthDeclined?)
      && (ActionCode(first) == ActionCode(second) <==> !(first.AuthApproved? && flagged))
      && (first.AuthApproved? && flagged ==> ActionCode(first) == "00" && ActionCode(second) == "51")
  {
    hide Valid, Authorize;
    AuthorizeKeepsValid(s, token, rrn, amount, flagged);
    AuthorizeRecords(s, token, rrn, amount, flagged);
    var s' := Authorize(s, token, rrn, amount, flagged).0;
    assert Run(s', []) == s';
    ReplayChangesNothing(s', |s.holds|, s', token', amount', flagged');
  }
}
