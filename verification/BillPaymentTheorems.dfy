/** What every interleaving of bill payments, crashes, lost answers and other
    transactions guarantees. */
module BillPaymentTheorems {
  import opened Options
  import opened Sums
  import CardState
  import opened BillPaymentProtocol

  function Under(key: Key): Move -> int {
    (m: Move) => if m.key == key then 1 else 0
  }

  lemma {:induction false} CountUnder(moves: seq<Move>, key: Key)
    requires forall i, j :: 0 <= i < j < |moves| ==> moves[i].key != moves[j].key
    ensures Sum(moves, Under(key)) == if exists m <- moves :: m.key == key then 1 else 0
  {
    if moves != [] {
      var n := |moves| - 1;
      CountUnder(moves[..n], key);
      assert moves == moves[..n] + [moves[n]];
    }
  }

  lemma InitialInv(w: World)
    requires Initial(w)
    ensures Inv(w)
  {
  }

  /** What some interleaving from an empty database leads to. */
  ghost predicate Reachable(w: World) {
    exists start, actions :: Initial(start) && w == Run(start, actions)
  }

  lemma ReachableInv(w: World)
    requires Reachable(w)
    ensures Inv(w)
  {
    hide Inv, Initial, Run;
    var start, actions :| Initial(start) && w == Run(start, actions);
    InitialInv(start);
    RunKeepsInv(start, actions);
  }

  /** A key moves money at most once: once if it has a stored answer, else never. */
  lemma MovesAtMostOnce(w: World, key: Key)
    requires Reachable(w)
    ensures Sum(w.moves, Under(key)) == if key in w.table && w.table[key].Some? then 1 else 0
  {
    hide BalancesOk, LocksOk, SessionOk, Reachable;
    ReachableInv(w);
    CountUnder(w.moves, key);
  }

  /** Stored answers, moves and given answers are kept. */
  ghost predicate Keeps(w: World, w': World) {
    && w.moves <= w'.moves
    && (forall k <- w.table :: k in w'.table && w'.table[k] == w.table[k])
    && (forall sid <- w.sessions ::
          sid in w'.sessions && w'.sessions[sid] == w.sessions[sid].(phase := w'.sessions[sid].phase)
          && (w.sessions[sid].phase.Done? ==> w'.sessions[sid].phase == w.sessions[sid].phase))
  }

  /** Rows are added to the history and the table, and one session moves on. */
  lemma PhaseChangeKeeps(w: World, w': World, sid: SessionId, phase: Phase)
    requires w.moves <= w'.moves && forall k <- w.table :: k in w'.table && w'.table[k] == w.table[k]
    requires sid in w.sessions && w'.sessions == w.sessions[sid := w.sessions[sid].(phase := phase)]
    requires w.sessions[sid].phase.Done? ==> phase == w.sessions[sid].phase
    ensures Keeps(w, w')
  {
  }

  lemma TableGrowthKeeps(w: World, w': World)
    requires w'.moves == w.moves && forall k <- w.table :: k in w'.table && w'.table[k] == w.table[k]
    requires forall sid <- w.sessions :: sid in w'.sessions && w'.sessions[sid] == w.sessions[sid]
    ensures Keeps(w, w')
  {
  }

  lemma NextKeeps(w: World, action: Action)
    requires Inv(w)
    ensures Keeps(w, Next(w, action))
  {
    hide Inv, Advance, Crash, Keeps, OutsideOf;
    match action
    case Continue(sid, available, acknowledged) =>
      if sid in w.sessions {
        AdvanceKeeps(w, sid, available, acknowledged);
      } else {
        TableGrowthKeeps(w, w);
      }
    case Fail(sid) =>
      if sid in w.sessions {
        CrashKeeps(w, sid);
      } else {
        TableGrowthKeeps(w, w);
      }
    case _ => TableGrowthKeeps(w, Next(w, action));
  }

  lemma CrashKeeps(w: World, sid: SessionId)
    requires sid in w.sessions
    ensures Keeps(w, Crash(w, sid))
  {
    hide Keeps, Holds;
    if w.sessions[sid].phase.Done? {
      TableGrowthKeeps(w, w);
    } else {
      PhaseChangeKeeps(w, Crash(w, sid), sid, Done(Error));
    }
  }

  lemma CommitKeeps(w: World, sid: SessionId, available: int, acknowledged: bool)
    requires sid in w.sessions && SessionOk(w, sid) && w.sessions[sid].phase.Inserted?
    ensures Source(w.sessions[sid].request) in w.rows && Target(w.sessions[sid].request) in w.rows
    ensures Keeps(w, Commit(w, sid, available, acknowledged))
  {
    hide PhaseOk, Holds, Keeps, Commit;
    InsertedIsFresh(w, w.sessions[sid]);
    var w' := Commit(w, sid, available, acknowledged);
    CommitTransfers(w, sid, available, acknowledged);
    PhaseChangeKeeps(w, w', sid, w'.sessions[sid].phase);
  }

  lemma AdvanceKeeps(w: World, sid: SessionId, available: int, acknowledged: bool)
    requires Inv(w) && sid in w.sessions
    ensures Keeps(w, Advance(w, sid, available, acknowledged))
  {
    hide Inv, PhaseOk, Holds, NextStatement, Keeps, Commit;
    SessionHolds(w, sid);
    var s := w.sessions[sid];
    var w' := Advance(w, sid, available, acknowledged);
    DoneWaits(w, s);
    if NextStatement(w, s).CommitPayment? {
      CommitKeeps(w, sid, available, acknowledged);
    } else if NextStatement(w, s).Wait? {
      TableGrowthKeeps(w, w);
    } else {
      PhaseChangeKeeps(w, w', sid, w'.sessions[sid].phase);
    }
  }

  lemma DoneWaits(w: World, s: Session)
    ensures s.phase.Done? ==> NextStatement(w, s).Wait?
    ensures NextStatement(w, s).CommitPayment? ==> s.phase.Inserted?
  {
  }

  /** Over every run stored answers, moves and given answers are never taken back. */
  lemma {:induction false} NothingIsTakenBack(w: World, actions: seq<Action>)
    requires Inv(w)
    ensures Keeps(w, Run(w, actions))
  {
    hide Inv, Next;
    if actions != [] {
      var earlier := actions[..|actions| - 1];
      NothingIsTakenBack(w, earlier);
      RunKeepsInv(w, earlier);
      NextKeeps(Run(w, earlier), actions[|actions| - 1]);
    }
  }

  predicate Succeeded(w: World, sid: SessionId) {
    sid in w.sessions && w.sessions[sid].phase.Done? && w.sessions[sid].phase.answer.Success?
  }

  /** A success answers the one move made under its key, for the very same request; so all
      successes under a key, at any two times of a run, are for one request and one result. */
  lemma SuccessesAgree(w: World, actions: seq<Action>, w': World, sid: SessionId, sid': SessionId)
    requires Reachable(w) && w' == Run(w, actions) && Succeeded(w, sid) && Succeeded(w', sid')
    ensures var s, s' := w.sessions[sid], w'.sessions[sid'];
      && (exists m <- w.moves :: m == Move(s.key, s.request, s.phase.answer.result))
      && (s.key == s'.key ==> s'.request == s.request && s'.phase.answer.result == s.phase.answer.result)
  {
    hide BalancesOk, LocksOk, Holds, Reachable, Run;
    ReachableInv(w);
    NothingIsTakenBack(w, actions);
    RunKeepsInv(w, actions);
    assert SessionOk(w, sid) && SessionOk(w', sid');
    var m :| m in w.moves && m.key == w.sessions[sid].key;
  }

  /** Whatever interleaves, a balance is what other transactions made of it less what the
      moves took: no update of one payment is lost to another or to anybody else. */
  lemma NoUpdateIsLost(w: World, id: RowId)
    requires Reachable(w) && !id.MirrorRow?
    ensures (if id in w.rows then w.rows[id].cleared else 0) == OutsideOf(w, id) - Sum(w.moves, TakenFrom(id))
  {
    hide MovesOk, LocksOk, SessionOk, Reachable;
    ReachableInv(w);
  }

  /** A commit takes the amount from the payer's own active rows, in their currency and as
      they are at that moment; both cover it, and the card's mirror is brought in line. */
  lemma CommitsAreCovered(w: World, sid: SessionId, available: int, acknowledged: bool, w': World)
    requires Reachable(w) && sid in w.sessions && w.sessions[sid].phase.Inserted?
    requires w' == Advance(w, sid, available, acknowledged)
    ensures var r := w.sessions[sid].request;
      && Transferred(w, w', sid)
      && w.rows[Source(r)].owner == w.rows[Target(r)].owner == w.sessions[sid].user
      && w.rows[Source(r)].active && w.rows[Target(r)].active
      && w.rows[Source(r)].currency == w.rows[Target(r)].currency == r.currency
      && 0 <= w'.rows[Source(r)].cleared < w.rows[Source(r)].cleared
      && 0 <= w'.rows[Target(r)].cleared < w.rows[Target(r)].cleared
  {
    hide BooksOk, LocksOk, PhaseOk, Holds, Commit, Reachable;
    ReachableInv(w);
    assert SessionOk(w, sid);
    InsertedIsFresh(w, w.sessions[sid]);
    CommitTransfers(w, sid, available, acknowledged);
  }

  /** Thanks to the locks and the second look at the table, no session ever reaches the
      posting with its own request already posted under its key: the journal's way of
      handing back an existing posting is never taken, and the same debit never repeated. */
  lemma NeverReposts(w: World, sid: SessionId)
    requires Reachable(w) && sid in w.sessions
    ensures var s := w.sessions[sid];
      (s.phase.MirrorReady? || s.phase.KeyUnused? || s.phase.Inserted?) && s.key in w.table ==>
        w.table[s.key].None? || w.table[s.key].value.request != s.request
  {
    hide BooksOk, LocksOk, Holds, Reachable;
    ReachableInv(w);
    assert SessionOk(w, sid);
  }

  /** A retry as long after as one likes, under a key that has a stored answer: the stored
      result for the same request and a conflict for any other, without moving anything. */
  lemma RetryAnswers(w: World, actions: seq<Action>, w': World, sid: SessionId, user: CardState.User,
                     request: CardState.PaymentRequest, key: Key, available: int)
    requires Reachable(w) && key in w.table && w.table[key].Some? && w' == Run(w, actions)
    requires sid !in w'.sessions && request.amount > 0
    ensures var w'' := Next(Next(w', Begin(sid, user, request, key)), Continue(sid, available, true));
      && w'' == w'.(sessions := w''.sessions)
      && sid in w''.sessions
      && w''.sessions[sid].phase == Done(if w.table[key].value.request == request
                                         then Success(w.table[key].value.result) else Conflict)
  {
    hide Inv, Run, Reachable, Next;
    ReachableInv(w);
    NothingIsTakenBack(w, actions);
    AnsweredAtOnce(w', sid, user, request, key, available);
  }

  lemma AnsweredAtOnce(w: World, sid: SessionId, user: CardState.User, request: CardState.PaymentRequest, key: Key,
                       available: int)
    requires key in w.table && w.table[key].Some? && sid !in w.sessions && request.amount > 0
    ensures var w' := Next(Next(w, Begin(sid, user, request, key)), Continue(sid, available, true));
      && w' == w.(sessions := w'.sessions)
      && sid in w'.sessions
      && w'.sessions[sid].phase == Done(if w.table[key].value.request == request
                                        then Success(w.table[key].value.result) else Conflict)
  {
    var w1 := Next(w, Begin(sid, user, request, key));
    assert w1.locks - {} == w.locks;
  }

  // ------------------------------------------------- a payment left to itself

  function Repeat(w: World, sid: SessionId, available: int, n: nat): World {
    if n == 0 then w else Next(Repeat(w, sid, available, n - 1), Continue(sid, available, true))
  }

  /** The payment can be made and nobody stands in its way. */
  predicate Ready(w: World, user: CardState.User, r: CardState.PaymentRequest, key: Key) {
    && 0 < r.amount && key !in w.table && key !in w.inflight
    && Visible(w, Source(r), user) && Visible(w, Target(r), user)
    && Source(r) !in w.locks && Target(r) !in w.locks
    && w.rows[Source(r)].currency == w.rows[Target(r)].currency == r.currency
    && (MirrorRow(r.card) in w.rows ==>
          MirrorRow(r.card) !in w.locks && w.rows[MirrorRow(r.card)].currency == r.currency)
    && r.amount <= w.rows[Source(r)].cleared && r.amount <= w.rows[Target(r)].cleared
  }

  /** `w` with session `s` under way. */
  function At(w: World, sid: SessionId, s: Session, locks: map<RowId, SessionId>, inflight: map<Key,
              SessionId>): World {
    w.(locks := locks, inflight := inflight, sessions := w.sessions[sid := s])
  }

  lemma StepAt(w: World, sid: SessionId, s: Session, locks: map<RowId, SessionId>, inflight: map<Key, SessionId>,
               available: int)
    ensures var now := At(w, sid, s, locks, inflight);
      var then' := Next(now, Continue(sid, available, true));
      match NextStatement(now, s)
      case Go(phase) => then' == At(w, sid, s.(phase := phase), locks, inflight)
      case Lock(id, phase) => then' == At(w, sid, s.(phase := phase), locks[id := sid], inflight)
      case Insert(phase) => then' == At(w, sid, s.(phase := phase), locks, inflight[s.key := sid])
      case _ => true
  {
    hide NextStatement, Commit;
    assert w.sessions[sid := s][sid := s] == w.sessions[sid := s];
    forall phase ensures w.sessions[sid := s][sid := s.(phase := phase)] == w.sessions[sid := s.(phase := phase)] {
    }
  }

  /** The locks a payment of `r` holds when it inserts its key. */
  function Taken(w: World, sid: SessionId, r: CardState.PaymentRequest): map<RowId, SessionId> {
    var locks := w.locks[Source(r) := sid][Target(r) := sid];
    if MirrorRow(r.card) in w.rows then locks[MirrorRow(r.card) := sid] else locks
  }

  /** From a world reached in `n` statements, the next statement leads to the one reached in `n + 1`. */
  lemma Reached(w: World, sid: SessionId, s: Session, locks: map<RowId, SessionId>, inflight: map<Key, SessionId>,
                available: int, start: World, n: nat, statement: Statement)
    requires Repeat(start, sid, available, n) == At(w, sid, s, locks, inflight)
    requires NextStatement(At(w, sid, s, locks, inflight), s) == statement
    ensures match statement
      case Go(phase) => Repeat(start, sid, available, n + 1) == At(w, sid, s.(phase := phase), locks, inflight)
      case Lock(id, phase) =>
        Repeat(start, sid, available, n + 1) == At(w, sid, s.(phase := phase), locks[id := sid], inflight)
      case Insert(phase) =>
        Repeat(start, sid, available, n + 1) == At(w, sid, s.(phase := phase), locks, inflight[s.key := sid])
      case _ => true
  {
    hide NextStatement, At, Next;
    StepAt(w, sid, s, locks, inflight, available);
  }

  // The stages of a payment by itself, by the number of statements behind it.

  predicate Free(w: World, id: RowId, user: CardState.User) {
    Visible(w, id, user) && id !in w.locks
  }

  predicate Coverable(w: World, r: CardState.PaymentRequest)
    requires Source(r) in w.rows && Target(r) in w.rows
  {
    && w.rows[Source(r)].currency == w.rows[Target(r)].currency == r.currency
    && r.amount <= w.rows[Source(r)].cleared && r.amount <= w.rows[Target(r)].cleared
  }

  predicate MirrorFree(w: World, r: CardState.PaymentRequest) {
    MirrorRow(r.card) in w.rows ==>
      MirrorRow(r.card) !in w.locks && w.rows[MirrorRow(r.card)].currency == r.currency
  }

  /** What the first `n` statements need. */
  predicate Passed(w: World, user: CardState.User, r: CardState.PaymentRequest, key: Key, n: nat) {
    && 0 < r.amount
    && (1 <= n ==> key !in w.table)
    && (2 <= n ==> Free(w, Source(r), user))
    && (3 <= n ==> Free(w, Target(r), user))
    && (5 <= n ==> Coverable(w, r))
    && (6 <= n ==> MirrorFree(w, r))
    && (8 <= n ==> key !in w.inflight)
  }

  function StageOf(w: World, user: CardState.User, r: CardState.PaymentRequest, key: Key, n: nat): Phase
    requires Passed(w, user, r, key, n) && n <= 8
  {
    var mirrored := MirrorRow(r.card) in w.rows;
    if n == 0 then Started else if n == 1 then FirstMiss
    else if n == 2 then SourceLocked(w.rows[Source(r)])
    else
      var source, card := w.rows[Source(r)], w.rows[Target(r)];
      if n == 3 then CardLocked(source, card)
      else if n == 4 then SecondMiss(source, card) else if n == 5 then Funded(source, card)
      else if n == 6 then MirrorReady(source, card, mirrored)
      else if n == 7 then KeyUnused(source, card, mirrored) else Inserted(source, card, mirrored)
  }

  function LocksOf(w: World, sid: SessionId, r: CardState.PaymentRequest, n: nat): map<RowId, SessionId> {
    if n <= 1 then w.locks else if n == 2 then w.locks[Source(r) := sid]
    else if n <= 5 then w.locks[Source(r) := sid][Target(r) := sid] else Taken(w, sid, r)
  }

  function StageAt(w: World, sid: SessionId, user: CardState.User, r: CardState.PaymentRequest, key: Key, n: nat): World
    requires Passed(w, user, r, key, n) && n <= 8
  {
    At(w, sid, Session(user, r, key, StageOf(w, user, r, key, n)), LocksOf(w, sid, r, n),
       if n == 8 then w.inflight[key := sid] else w.inflight)
  }

  /** The statement from one stage to the next. */
  lemma StatementAt(w: World, sid: SessionId, user: CardState.User, r: CardState.PaymentRequest, key: Key, n: nat)
    requires n < 8 && Passed(w, user, r, key, n + 1) && Passed(w, user, r, key, n)
    ensures var s := Session(user, r, key, StageOf(w, user, r, key, n));
      var next := StageOf(w, user, r, key, n + 1);
      NextStatement(StageAt(w, sid, user, r, key, n), s)
      == if n == 1 then Lock(Source(r), next) else if n == 2 then Lock(Target(r), next)
         else if n == 5 && MirrorRow(r.card) in w.rows then Lock(MirrorRow(r.card), next)
         else if n == 7 then Insert(next) else Go(next)
  {
  }

  lemma PassedEarlier(w: World, user: CardState.User, r: CardState.PaymentRequest, key: Key, n: nat)
    requires Passed(w, user, r, key, n + 1)
    ensures Passed(w, user, r, key, n)
  {
  }

  lemma BegunAt(w: World, sid: SessionId, user: CardState.User, r: CardState.PaymentRequest, key: Key, available: int)
    requires Passed(w, user, r, key, 0) && sid !in w.sessions
    ensures Repeat(Next(w, Begin(sid, user, r, key)), sid, available, 0) == StageAt(w, sid, user, r, key, 0)
  {
  }

  /** A payment by itself gets as far as its conditions hold. */
  lemma {:induction false} GetsTo(w: World, sid: SessionId, user: CardState.User, r: CardState.PaymentRequest, key: Key,
                                  available: int, n: nat)
    requires n <= 8 && Passed(w, user, r, key, n) && sid !in w.sessions
    ensures Repeat(Next(w, Begin(sid, user, r, key)), sid, available, n) == StageAt(w, sid, user, r, key, n)
  {
    hide Next, Repeat, NextStatement, Passed, At, Taken, StageOf;
    if n == 0 {
      BegunAt(w, sid, user, r, key, available);
    } else {
      PassedEarlier(w, user, r, key, n - 1);
      GetsTo(w, sid, user, r, key, available, n - 1);
      StatementAt(w, sid, user, r, key, n - 1);
      var s := Session(user, r, key, StageOf(w, user, r, key, n - 1));
      var statement := NextStatement(StageAt(w, sid, user, r, key, n - 1), s);
      Reached(w, sid, s, LocksOf(w, sid, r, n - 1), w.inflight, available, Next(w, Begin(sid, user, r, key)), n - 1,
              statement);
      LocksOfNext(w, sid, r, n - 1);
    }
  }

  lemma LocksOfNext(w: World, sid: SessionId, r: CardState.PaymentRequest, n: nat)
    ensures LocksOf(w, sid, r, n + 1)
            == if n == 1 then LocksOf(w, sid, r, n)[Source(r) := sid]
               else if n == 2 then LocksOf(w, sid, r, n)[Target(r) := sid]
               else if n == 5 && MirrorRow(r.card) in w.rows then LocksOf(w, sid, r, n)[MirrorRow(r.card) := sid]
               else LocksOf(w, sid, r, n)
  {
  }

  lemma ReadyPasses(w: World, user: CardState.User, r: CardState.PaymentRequest, key: Key)
    ensures Ready(w, user, r, key) <==> Passed(w, user, r, key, 8)
  {
  }

  /** The ninth statement is the commit; if its acknowledgement is lost the answer is a
      conflict, to be retried, though the money has moved. */
  lemma InsertedCommits(w: World, sid: SessionId, user: CardState.User, r: CardState.PaymentRequest, key: Key,
                        available: int, acknowledged: bool)
    requires Ready(w, user, r, key) && sid !in w.sessions
    ensures var source, card := w.rows[Source(r)], w.rows[Target(r)];
      var now := At(w, sid, Session(user, r, key, Inserted(source, card, MirrorRow(r.card) in w.rows)),
                    Taken(w, sid, r), w.inflight[key := sid]);
      var then' := Next(now, Continue(sid, available, acknowledged));
      var result := CardState.PaymentResult(|w.moves|, r.amount, source.cleared - r.amount, card.cleared - r.amount,
                                            available);
      && sid in then'.sessions && then'.sessions[sid].phase == Done(if acknowledged then Success(result) else Conflict)
      && key in then'.table && then'.table[key] == Some(CardState.Receipt(r, result))
      && then'.moves == w.moves + [Move(key, r, result)] && then'.locks == w.locks && then'.inflight == w.inflight
  {
    hide NextStatement;
    var s := Session(user, r, key, Inserted(w.rows[Source(r)], w.rows[Target(r)], MirrorRow(r.card) in w.rows));
    InsertedMeansCommit(At(w, sid, s, Taken(w, sid, r), w.inflight[key := sid]), s);
    assert w.inflight[key := sid] - {key} == w.inflight;
    assert Taken(w, sid, r) - Holds(s) == w.locks;
  }

  lemma InsertedMeansCommit(w: World, s: Session)
    requires s.phase.Inserted?
    ensures NextStatement(w, s).CommitPayment?
  {
  }

  /** A payment that can be made and is left to itself moves the money in nine statements. */
  lemma AloneSucceeds(w: World, sid: SessionId, user: CardState.User, r: CardState.PaymentRequest, key: Key,
                      available: int)
    requires Ready(w, user, r, key) && sid !in w.sessions
    ensures var w' := Repeat(Next(w, Begin(sid, user, r, key)), sid, available, 9);
      var result := CardState.PaymentResult(|w.moves|, r.amount, w.rows[Source(r)].cleared - r.amount,
                                            w.rows[Target(r)].cleared - r.amount, available);
      && sid in w'.sessions && w'.sessions[sid].phase == Done(Success(result))
      && w'.moves == w.moves + [Move(key, r, result)] && w'.locks == w.locks && w'.inflight == w.inflight
  {
    hide At, Next;
    hide Repeat;
    var w0 := Next(w, Begin(sid, user, r, key));
    ReadyPasses(w, user, r, key);
    GetsTo(w, sid, user, r, key, available, 8);
    InsertedCommits(w, sid, user, r, key, available, true);
    LastStatement(w0, sid, available);
  }

  lemma LastStatement(w: World, sid: SessionId, available: int)
    ensures Repeat(w, sid, available, 9) == Next(Repeat(w, sid, available, 8), Continue(sid, available, true))
  {
    hide Next;
  }

  // ----------------------------------------- and what else it can be answered

  /** The answer that ends a payment by itself after `n` statements, if there is one. */
  function Ending(w: World, user: CardState.User, r: CardState.PaymentRequest, key: Key, n: nat): Option<Answer>
    requires n <= 7 && Passed(w, user, r, key, n)
  {
    if n == 0 && key in w.table then
      Some(if w.table[key].Some? && w.table[key].value.request == r
           then Success(w.table[key].value.result) else Conflict)
    else if (n == 1 && !Visible(w, Source(r), user)) || (n == 2 && !Visible(w, Target(r), user)) then Some(NotFound)
    else if (n == 1 && Source(r) in w.locks) || (n == 2 && Target(r) in w.locks) then Some(Conflict)
    else if n == 4 && !Coverable(w, r) then Some(Unprocessable)
    else if n == 5 && !MirrorFree(w, r) then Some(if MirrorRow(r.card) in w.locks then Conflict else Unprocessable)
    else None
  }

  lemma EndsThere(w: World, sid: SessionId, user: CardState.User, r: CardState.PaymentRequest, key: Key, n: nat)
    requires n <= 7 && Passed(w, user, r, key, n) && Ending(w, user, r, key, n).Some?
    ensures NextStatement(StageAt(w, sid, user, r, key, n), Session(user, r, key, StageOf(w, user, r, key, n)))
            == End(Done(Ending(w, user, r, key, n).value))
  {
  }

  /** A session that ended, or waits, stays as it is. */
  lemma {:induction false} StaysPut(start: World, sid: SessionId, available: int, n: nat, m: nat)
    requires n <= m && sid in Repeat(start, sid, available, n).sessions
    requires var now := Repeat(start, sid, available, n); NextStatement(now, now.sessions[sid]).Wait?
    ensures Repeat(start, sid, available, m) == Repeat(start, sid, available, n)
  {
    hide NextStatement;
    if n < m {
      StaysPut(start, sid, available, n, m - 1);
    }
  }

  lemma OwnLocksGo(w: World, sid: SessionId, user: CardState.User, r: CardState.PaymentRequest, key: Key, n: nat)
    requires n <= 5 && Passed(w, user, r, key, n)
    ensures LocksOf(w, sid, r, n) - Holds(Session(user, r, key, StageOf(w, user, r, key, n))) == w.locks
  {
  }

  lemma EndStep(w: World, sid: SessionId, s: Session, locks: map<RowId, SessionId>, phase: Phase, available: int)
    requires NextStatement(At(w, sid, s, locks, w.inflight), s) == End(phase) && locks - Holds(s) == w.locks
    ensures Next(At(w, sid, s, locks, w.inflight), Continue(sid, available, true))
            == w.(sessions := w.sessions[sid := s.(phase := phase)])
  {
    hide NextStatement, Holds;
    assert w.sessions[sid := s][sid := s.(phase := phase)] == w.sessions[sid := s.(phase := phase)];
  }

  /** What is left of a payment that ended after `n` statements: its answer alone. */
  lemma EndedAt(w: World, sid: SessionId, user: CardState.User, r: CardState.PaymentRequest, key: Key, available: int,
                n: nat)
    requires n <= 5 && Passed(w, user, r, key, n) && sid !in w.sessions && Ending(w, user, r, key, n).Some?
    ensures Repeat(Next(w, Begin(sid, user, r, key)), sid, available, 9)
            == w.(sessions := w.sessions[sid := Session(user, r, key, Done(Ending(w, user, r, key, n).value))])
  {
    hide Next, Repeat, NextStatement, Passed, At, StageOf, LocksOf, Ending, Holds;
    var w0 := Next(w, Begin(sid, user, r, key));
    var s := Session(user, r, key, StageOf(w, user, r, key, n));
    var phase := Done(Ending(w, user, r, key, n).value);
    GetsTo(w, sid, user, r, key, available, n);
    EndsThere(w, sid, user, r, key, n);
    OwnLocksGo(w, sid, user, r, key, n);
    EndStep(w, sid, s, LocksOf(w, sid, r, n), phase, available);
    OneStatement(w0, sid, available, n);
    DoneWaits(Repeat(w0, sid, available, n + 1), s.(phase := phase));
    StaysPut(w0, sid, available, n + 1, 9);
  }

  lemma OneStatement(w: World, sid: SessionId, available: int, n: nat)
    ensures Repeat(w, sid, available, n + 1) == Next(Repeat(w, sid, available, n), Continue(sid, available, true))
  {
    hide Next;
  }

  lemma WaitsForKey(w: World, sid: SessionId, user: CardState.User, r: CardState.PaymentRequest, key: Key,
                    available: int)
    requires Passed(w, user, r, key, 7) && key in w.inflight && sid !in w.sessions
    ensures Repeat(Next(w, Begin(sid, user, r, key)), sid, available, 9) == StageAt(w, sid, user, r, key, 7)
  {
    hide Next, Repeat, Passed, LocksOf;
    GetsTo(w, sid, user, r, key, available, 7);
    StaysPut(Next(w, Begin(sid, user, r, key)), sid, available, 7, 9);
  }

  /** How far a payment by itself gets. */
  function Reach(w: World, user: CardState.User, r: CardState.PaymentRequest, key: Key): (n: nat)
    requires 0 < r.amount
    ensures n <= 8 && Passed(w, user, r, key, n)
    ensures n == 8 || (n == 7 && key in w.inflight) || (n <= 5 && Ending(w, user, r, key, n).Some?)
  {
    if key in w.table then 0 else if !Free(w, Source(r), user) then 1 else if !Free(w, Target(r), user) then 2
    else if !Coverable(w, r) then 4 else if !MirrorFree(w, r) then 5 else if key in w.inflight then 7 else 8
  }

  /** The same as conditions on the rows, the locks and the keys. */
  lemma EndingMeans(w: World, user: CardState.User, r: CardState.PaymentRequest, key: Key, n: nat, answer: Answer)
    requires 0 < r.amount && n == Reach(w, user, r, key) && n <= 5 && Ending(w, user, r, key, n) == Some(answer)
    requires key !in w.table
    ensures var source, card, mirror := Source(r), Target(r), MirrorRow(r.card);
      && (answer == NotFound <==>
            || !Visible(w, source, user)
            || (source !in w.locks && !Visible(w, card, user)))
      && (answer == Conflict <==>
            && Visible(w, source, user)
            && (|| source in w.locks
                || (&& Visible(w, card, user)
                    && (card in w.locks || (Coverable(w, r) && mirror in w.rows && mirror in w.locks)))))
      && (answer == Unprocessable <==>
            && Free(w, source, user) && Free(w, card, user)
            && (|| !Coverable(w, r)
                || (mirror in w.rows && mirror !in w.locks && w.rows[mirror].currency != r.currency)))
      && !answer.Success? && !Ready(w, user, r, key)
  {
  }

  /** Which answer a payment gets that is left to itself, whatever others hold meanwhile: a
      stored one for a used key; `NotFound` for rows that are not the payer's active ones;
      a conflict, never a wait, for a row somebody has locked; `Unprocessable` for currencies
      or amounts that do not fit; the payment itself; or a wait, for a key being inserted
      alone. But for the payment nothing is changed. */
  lemma AloneIsAnswered(w: World, sid: SessionId, user: CardState.User, r: CardState.PaymentRequest, key: Key,
                        available: int, w': World)
    requires 0 < r.amount && sid !in w.sessions
    requires w' == Repeat(Next(w, Begin(sid, user, r, key)), sid, available, 9)
    ensures sid in w'.sessions
    ensures key in w.table ==>
              w'.sessions[sid].phase == Done(if w.table[key].Some? && w.table[key].value.request == r
                                             then Success(w.table[key].value.result) else Conflict)
    ensures key !in w.table ==>
      var phase := w'.sessions[sid].phase; var source, card, mirror := Source(r), Target(r), MirrorRow(r.card);
      && (phase == Done(NotFound) <==>
            || !Visible(w, source, user)
            || (source !in w.locks && !Visible(w, card, user)))
      && (phase == Done(Conflict) <==>
            && Visible(w, source, user)
            && (|| source in w.locks
                || (&& Visible(w, card, user)
                    && (card in w.locks || (Coverable(w, r) && mirror in w.rows && mirror in w.locks)))))
      && (phase == Done(Unprocessable) <==>
            && Free(w, source, user) && Free(w, card, user)
            && (|| !Coverable(w, r)
                || (mirror in w.rows && mirror !in w.locks && w.rows[mirror].currency != r.currency)))
      && (!phase.Done? <==> Passed(w, user, r, key, 7) && key in w.inflight)
      && (phase.Done? && phase.answer.Success? <==> Ready(w, user, r, key))
    ensures !Ready(w, user, r, key) ==>
              && w'.rows == w.rows && w'.table == w.table && w'.moves == w.moves && w'.inflight == w.inflight
              && (w'.sessions[sid].phase.Done? ==> w'.locks == w.locks)
  {
    hide Next, Repeat, LocksOf, Reach, Ending, Visible;
    var n := Reach(w, user, r, key);
    ReadyPasses(w, user, r, key);
    if n == 8 {
      hide At;
      AloneSucceeds(w, sid, user, r, key, available);
    } else if n == 7 {
      WaitsForKey(w, sid, user, r, key, available);
    } else {
      EndedAt(w, sid, user, r, key, available, n);
      if key in w.table {
        UsedKeyEnds(w, user, r, key);
      } else {
        EndingMeans(w, user, r, key, n, Ending(w, user, r, key, n).value);
        hide Passed, Coverable, Free;
        NotFar(w, user, r, key);
      }
    }
  }

  lemma UsedKeyEnds(w: World, user: CardState.User, r: CardState.PaymentRequest, key: Key)
    requires 0 < r.amount && key in w.table
    ensures Reach(w, user, r, key) == 0 && !Ready(w, user, r, key)
    ensures Ending(w, user, r, key, 0) == Some(if w.table[key].Some? && w.table[key].value.request == r
                                               then Success(w.table[key].value.result) else Conflict)
  {
  }

  lemma NotFar(w: World, user: CardState.User, r: CardState.PaymentRequest, key: Key)
    requires 0 < r.amount && Reach(w, user, r, key) <= 5
    ensures !Passed(w, user, r, key, 7)
  {
  }

  /** A session waits only when it is over or the key it would insert is in flight; a row
      that is locked is never waited for. */
  lemma OnlyKeysAreWaitedFor(w: World, s: Session)
    ensures NextStatement(w, s).Wait? <==> s.phase.Done? || (s.phase.KeyUnused? && s.key in w.inflight)
    ensures NextStatement(w, s).Lock? ==> NextStatement(w, s).id !in w.locks
  {
  }
}
