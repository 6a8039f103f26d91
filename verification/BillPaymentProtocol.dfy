/** Bill payments as concurrent database sessions: every statement of the service is one
    step, and the steps of all sessions and of other transactions interleave freely. */
module BillPaymentProtocol {
  import opened Options
  import opened Sums
  import opened CardState

  type SessionId = nat
  type Key = string

  datatype RowId = DepositRow(number: nat) | CardRow(card: CardAccountId) | MirrorRow(card: CardAccountId)
  datatype Row = Row(owner: User, active: bool, currency: Currency, cleared: int)

  datatype Answer =
    | Success(result: PaymentResult)
    | Conflict      // 409: lock, key in use for another request, or lost answer; retry
    | NotFound      // 404
    | Unprocessable // 422
    | Error         // any other exception

  /** Where a session stands; `source` and `card` are the rows as read under their locks. */
  datatype Phase =
    | Started
    | FirstMiss
    | SourceLocked(source: Row)
    | CardLocked(source: Row, card: Row)
    | SecondMiss(source: Row, card: Row)
    | Funded(source: Row, card: Row)
    | MirrorReady(source: Row, card: Row, mirrored: bool)
    | KeyUnused(source: Row, card: Row, mirrored: bool)
    | Inserted(source: Row, card: Row, mirrored: bool)
    | Collided
    | Done(answer: Answer)

  datatype Session = Session(user: User, request: PaymentRequest, key: Key, phase: Phase)

  /** A committed transfer, kept as history. */
  datatype Move = Move(key: Key, request: PaymentRequest, result: PaymentResult)

  /** `table`: committed transactions by unique key, with the stored answer of a bill
      payment. `inflight`: keys inserted but not committed. `outside`: what other
      transactions changed in each balance. */
  datatype World = World(
    rows: map<RowId, Row>,
    table: map<Key, Option<Receipt>>,
    inflight: map<Key, SessionId>,
    locks: map<RowId, SessionId>,
    sessions: map<SessionId, Session>,
    moves: seq<Move>,
    outside: map<RowId, int>)

  function Source(r: PaymentRequest): RowId { DepositRow(r.source) }
  function Target(r: PaymentRequest): RowId { CardRow(r.card) }

  /** The rows a session has locked. */
  function Holds(s: Session): set<RowId> {
    var source, card, mirror := Source(s.request), Target(s.request), MirrorRow(s.request.card);
    match s.phase
    case SourceLocked(_) => {source}
    case CardLocked(_, _) => {source, card}
    case SecondMiss(_, _) => {source, card}
    case Funded(_, _) => {source, card}
    case MirrorReady(_, _, mirrored) => if mirrored then {source, card, mirror} else {source, card}
    case KeyUnused(_, _, mirrored) => if mirrored then {source, card, mirror} else {source, card}
    case Inserted(_, _, mirrored) => if mirrored then {source, card, mirror} else {source, card}
    case _ => {}
  }

  function Enter(w: World, sid: SessionId, phase: Phase): World
    requires sid in w.sessions
  {
    w.(sessions := w.sessions[sid := w.sessions[sid].(phase := phase)])
  }

  /** The end of a session's transaction, committed or rolled back: its locks go. */
  function Released(w: World, sid: SessionId): World
    requires sid in w.sessions
  {
    w.(locks := w.locks - Holds(w.sessions[sid]))
  }

  function Finish(w: World, sid: SessionId, answer: Answer): World
    requires sid in w.sessions
  {
    Enter(Released(w, sid), sid, Done(answer))
  }

  /** The stored answer for a key: the result for the same request, a conflict for another. */
  function Replay(w: World, s: Session): Option<Answer> {
    if s.key !in w.table then None
    else
      var stored := w.table[s.key];
      if stored.Some? && stored.value.request == s.request then Some(Success(stored.value.result)) else Some(Conflict)
  }

  function Visible(w: World, id: RowId, user: User): bool {
    id in w.rows && w.rows[id].owner == user && w.rows[id].active
  }

  /** What a commit writes: the balances computed from the rows read under lock, the key
      with its stored answer, and the end of the transaction. */
  function Commit(w: World, sid: SessionId, available: int, acknowledged: bool): World
    requires sid in w.sessions && w.sessions[sid].phase.Inserted?
    requires Source(w.sessions[sid].request) in w.rows && Target(w.sessions[sid].request) in w.rows
  {
    var s := w.sessions[sid];
    var r := s.request;
    var result := PaymentResult(|w.moves|, r.amount, s.phase.source.cleared - r.amount,
                                s.phase.card.cleared - r.amount, available);
    var source := w.rows[Source(r)].(cleared := result.source);
    var card := w.rows[Target(r)].(cleared := result.card);
    var mirror := Row(card.owner, card.active, card.currency, card.cleared);
    var w' := w.(
      rows := w.rows[Source(r) := source][Target(r) := card][MirrorRow(r.card) := mirror],
      table := w.table[s.key := Some(Receipt(r, result))],
      inflight := w.inflight - {s.key},
      moves := w.moves + [Move(s.key, r, result)]);
    Finish(w', sid, if acknowledged then Success(result) else Conflict)
  }

  /** What the next statement of a session does: it waits, ends the transaction, goes on,
      goes on with one more row locked or with its key inserted, or commits. */
  datatype Statement =
    | Wait
    | End(phase: Phase)
    | Go(phase: Phase)
    | Lock(id: RowId, phase: Phase)
    | Insert(phase: Phase)
    | CommitPayment

  function NextStatement(w: World, s: Session): Statement {
    var r := s.request;
    match s.phase
    case Started =>
      var previous := Replay(w, s);
      if previous.Some? then End(Done(previous.value)) else Go(FirstMiss)
    case FirstMiss =>
      if !Visible(w, Source(r), s.user) then End(Done(NotFound))
      else if Source(r) in w.locks then End(Done(Conflict))
      else Lock(Source(r), SourceLocked(w.rows[Source(r)]))
    case SourceLocked(source) =>
      if !Visible(w, Target(r), s.user) then End(Done(NotFound))
      else if Target(r) in w.locks then End(Done(Conflict))
      else Lock(Target(r), CardLocked(source, w.rows[Target(r)]))
    case CardLocked(source, card) =>
      var previous := Replay(w, s);
      if previous.Some? then End(Done(previous.value)) else Go(SecondMiss(source, card))
    case SecondMiss(source, card) =>
      if source.currency != r.currency || card.currency != r.currency then End(Done(Unprocessable))
      else if source.cleared < r.amount || card.cleared < r.amount then End(Done(Unprocessable))
      else Go(Funded(source, card))
    case Funded(source, card) =>
      var mirror := MirrorRow(r.card);
      if mirror !in w.rows then Go(MirrorReady(source, card, false))
      else if mirror in w.locks then End(Done(Conflict))
      else if w.rows[mirror].currency != r.currency then End(Done(Unprocessable))
      else Lock(mirror, MirrorReady(source, card, true))
    case MirrorReady(source, card, mirrored) =>
      if s.key !in w.table then Go(KeyUnused(source, card, mirrored))
      // The same entries are already posted: their statement line exists, a second violates its key.
      else if w.table[s.key].Some? && w.table[s.key].value.request == r then End(Collided)
      else End(Done(Error))
    case KeyUnused(source, card, mirrored) =>
      if s.key in w.inflight then Wait // for the transaction that inserted it
      else if s.key in w.table then End(Collided)
      else Insert(Inserted(source, card, mirrored))
    case Inserted(_, _, _) => CommitPayment
    case Collided =>
      var previous := Replay(w, s);
      End(Done(if previous.Some? then previous.value else Conflict))
    case Done(_) => Wait
  }

  /** Session `sid` performs its next statement. The recomputed available credit and
      whether the commit is acknowledged are not the session's to decide. */
  function Advance(w: World, sid: SessionId, available: int, acknowledged: bool): World
    requires sid in w.sessions
  {
    var s := w.sessions[sid];
    match NextStatement(w, s)
    case Wait => w
    case End(phase) => Enter(Released(w, sid), sid, phase)
    case Go(phase) => Enter(w, sid, phase)
    case Lock(id, phase) => Enter(w.(locks := w.locks[id := sid]), sid, phase)
    case Insert(phase) => Enter(w.(inflight := w.inflight[s.key := sid]), sid, phase)
    case CommitPayment =>
      if s.phase.Inserted? && Source(s.request) in w.rows && Target(s.request) in w.rows
      then Commit(w, sid, available, acknowledged) else w
  }

  /** An exception anywhere, or a lost connection: rolled back. */
  function Crash(w: World, sid: SessionId): World
    requires sid in w.sessions
  {
    var s := w.sessions[sid];
    if s.phase.Done? then w
    else Finish(if s.phase.Inserted? then w.(inflight := w.inflight - {s.key}) else w, sid, Error)
  }

  datatype Action =
    | Begin(sid: SessionId, user: User, request: PaymentRequest, key: Key)
    | Continue(sid: SessionId, available: int, acknowledged: bool)
    | Fail(sid: SessionId)
    | ChangeRow(id: RowId, row: Row) // another transaction commits a change to a row
    | TakeKey(key: Key)              // another kind of transaction commits under the key

  /** One step of anybody; a step that is not possible changes nothing. */
  function Next(w: World, action: Action): World {
    match action
    case Begin(sid, user, request, key) =>
      if sid in w.sessions || request.amount <= 0 then w
      else w.(sessions := w.sessions[sid := Session(user, request, key, Started)])
    case Continue(sid, available, acknowledged) =>
      if sid in w.sessions then Advance(w, sid, available, acknowledged) else w
    case Fail(sid) => if sid in w.sessions then Crash(w, sid) else w
    case ChangeRow(id, row) =>
      if id in w.locks then w
      else
        var change := row.cleared - (if id in w.rows then w.rows[id].cleared else 0);
        w.(rows := w.rows[id := row], outside := w.outside[id := OutsideOf(w, id) + change])
    case TakeKey(key) =>
      if key in w.table || key in w.inflight then w else w.(table := w.table[key := None])
  }

  function OutsideOf(w: World, id: RowId): int {
    if id in w.outside then w.outside[id] else 0
  }

  function Run(w: World, actions: seq<Action>): World {
    if actions == [] then w else Next(Run(w, actions[..|actions| - 1]), actions[|actions| - 1])
  }

  ghost predicate Initial(w: World) {
    w == World(map[], map[], map[], map[], map[], [], map[])
  }

  // --------------------------------------------------------------- invariant

  /** Past the second look at the table: no answer of this very request can be there. */
  predicate Unanswered(w: World, s: Session) {
    s.key in w.table ==> w.table[s.key].None? || w.table[s.key].value.request != s.request
  }

  /** A row read under lock is still the committed one, and the payer's. */
  predicate FreshRow(w: World, s: Session, id: RowId, row: Row) {
    id in w.rows && w.rows[id] == row && row.owner == s.user && row.active
  }

  predicate Fresh(w: World, s: Session, source: Row, card: Row) {
    FreshRow(w, s, Source(s.request), source) && FreshRow(w, s, Target(s.request), card)
  }

  /** Both rows are in the currency paid and cover the amount. */
  predicate Covered(s: Session, source: Row, card: Row) {
    && source.currency == s.request.currency == card.currency
    && 0 < s.request.amount <= source.cleared && s.request.amount <= card.cleared
  }

  predicate PhaseOk(w: World, s: Session) {
    match s.phase
    case SourceLocked(source) => FreshRow(w, s, Source(s.request), source)
    case CardLocked(source, card) => Fresh(w, s, source, card)
    case SecondMiss(source, card) => Fresh(w, s, source, card) && Unanswered(w, s)
    case Funded(source, card) => Fresh(w, s, source, card) && Unanswered(w, s) && Covered(s, source, card)
    case MirrorReady(source, card, _) => Fresh(w, s, source, card) && Unanswered(w, s) && Covered(s, source, card)
    case KeyUnused(source, card, _) => Fresh(w, s, source, card) && Unanswered(w, s) && Covered(s, source, card)
    case Inserted(source, card, _) => Fresh(w, s, source, card) && s.key !in w.table && Covered(s, source, card)
    case Done(Success(result)) => s.key in w.table && w.table[s.key] == Some(Receipt(s.request, result))
    case _ => true
  }

  ghost predicate SessionOk(w: World, sid: SessionId)
    requires sid in w.sessions
  {
    var s := w.sessions[sid];
    && 0 < s.request.amount
    && (forall id <- Holds(s) :: id in w.locks && w.locks[id] == sid)
    && (s.phase.Inserted? ==> s.key in w.inflight && w.inflight[s.key] == sid)
    && PhaseOk(w, s)
  }

  ghost predicate LocksOk(w: World) {
    && (forall id <- w.locks :: w.locks[id] in w.sessions && id in Holds(w.sessions[w.locks[id]]))
    && (forall k <- w.inflight ::
          && w.inflight[k] in w.sessions
          && w.sessions[w.inflight[k]].phase.Inserted? && w.sessions[w.inflight[k]].key == k)
  }

  /** What the moves took from a balance. */
  function TakenFrom(id: RowId): Move -> int {
    (m: Move) => if Source(m.request) == id || Target(m.request) == id then m.request.amount else 0
  }

  /** Moves and stored answers match one to one. */
  ghost predicate MovesOk(w: World) {
    && (forall i, j :: 0 <= i < j < |w.moves| ==> w.moves[i].key != w.moves[j].key)
    && (forall m <- w.moves :: m.key in w.table && w.table[m.key] == Some(Receipt(m.request, m.result)))
    && (forall k <- w.table :: w.table[k].Some? ==> exists m <- w.moves :: m.key == k)
  }

  /** Each balance is what others made of it less what the moves took. */
  ghost predicate BalancesOk(w: World) {
    forall id: RowId :: !id.MirrorRow? ==>
      (if id in w.rows then w.rows[id].cleared else 0) == OutsideOf(w, id) - Sum(w.moves, TakenFrom(id))
  }

  ghost predicate BooksOk(w: World) {
    MovesOk(w) && BalancesOk(w)
  }

  ghost predicate Inv(w: World) {
    (forall sid <- w.sessions :: SessionOk(w, sid)) && LocksOk(w) && BooksOk(w)
  }

  // ----------------------------------------------------- steps of one session

  /** Nothing session `other` relies on was changed. */
  ghost predicate Undisturbed(w: World, w': World, other: SessionId)
    requires other in w.sessions
  {
    var s := w.sessions[other];
    && other in w'.sessions && w'.sessions[other] == s
    && (forall id <- Holds(s) :: id in w.locks ==> id in w'.locks && w'.locks[id] == w.locks[id])
    && (forall id <- Holds(s) :: id in w.rows ==> id in w'.rows && w'.rows[id] == w.rows[id])
    && (forall k <- w.table :: k in w'.table && w'.table[k] == w.table[k])
    && (s.key in w'.table && s.key !in w.table ==> Holds(s) == {} || Unanswered(w', s))
    && (s.phase.Inserted? ==>
          s.key in w'.inflight && w'.inflight[s.key] == other && (s.key in w'.table ==> s.key in w.table))
  }

  lemma UndisturbedKeeps(w: World, w': World, other: SessionId)
    requires other in w.sessions && SessionOk(w, other) && Undisturbed(w, w', other)
    ensures SessionOk(w', other)
  {
  }

  /** Rows, table and history stay; session `sid` takes free locks or drops its own. */
  ghost predicate LocalStep(w: World, w': World, sid: SessionId) {
    && sid in w.sessions
    && w' == w.(inflight := w'.inflight, locks := w'.locks, sessions := w'.sessions)
    && sid in w'.sessions && w'.sessions == w.sessions[sid := w.sessions[sid].(phase := w'.sessions[sid].phase)]
    && (forall id <- w.locks :: w.locks[id] != sid ==> id in w'.locks && w'.locks[id] == w.locks[id])
    && (forall id <- w'.locks :: if w'.locks[id] == sid then id in Holds(w'.sessions[sid])
                                 else id in w.locks && w.locks[id] == w'.locks[id])
    && (forall k <- w.inflight :: w.inflight[k] != sid ==> k in w'.inflight && w'.inflight[k] == w.inflight[k])
    && (forall k <- w'.inflight ::
          if w'.inflight[k] == sid then w'.sessions[sid].phase.Inserted? && w'.sessions[sid].key == k
                                   else k in w.inflight && w.inflight[k] == w'.inflight[k])
  }

  lemma LocalStepKeepsInv(w: World, w': World, sid: SessionId)
    requires Inv(w) && LocalStep(w, w', sid) && SessionOk(w', sid)
    ensures Inv(w')
  {
    hide PhaseOk, Holds, Unanswered;
    forall other <- w'.sessions ensures SessionOk(w', other) {
      if other != sid {
        OthersLocal(w, w', sid, other);
      }
    }
    BooksLocal(w, w');
  }

  lemma OthersLocal(w: World, w': World, sid: SessionId, other: SessionId)
    requires Inv(w) && LocalStep(w, w', sid) && other in w.sessions && other != sid
    ensures other in w'.sessions && SessionOk(w', other)
  {
    hide PhaseOk, Holds, Unanswered, BooksOk;
    assert SessionOk(w, other);
    assert Undisturbed(w, w', other);
    UndisturbedKeeps(w, w', other);
  }

  lemma BooksLocal(w: World, w': World)
    requires BooksOk(w) && w'.rows == w.rows && w'.table == w.table && w'.moves == w.moves && w'.outside == w.outside
    ensures BooksOk(w')
  {
  }

  /** The end of a transaction that is not committed. */
  lemma EndKeepsInv(w: World, sid: SessionId, phase: Phase)
    requires Inv(w) && sid in w.sessions && !w.sessions[sid].phase.Inserted?
    requires phase.Collided? || phase.Done?
    requires PhaseOk(w, w.sessions[sid].(phase := phase))
    ensures Inv(Enter(Released(w, sid), sid, phase))
  {
    hide BooksOk;
    assert SessionOk(w, sid);
    LocalStepKeepsInv(w, Enter(Released(w, sid), sid, phase), sid);
  }

  /** A statement that neither locks nor inserts. */
  lemma EnterKeepsInv(w: World, sid: SessionId, phase: Phase)
    requires Inv(w) && sid in w.sessions && !w.sessions[sid].phase.Inserted? && !phase.Inserted?
    requires Holds(w.sessions[sid].(phase := phase)) == Holds(w.sessions[sid])
    requires PhaseOk(w, w.sessions[sid].(phase := phase))
    ensures Inv(Enter(w, sid, phase))
  {
    hide BooksOk, PhaseOk;
    assert SessionOk(w, sid);
    var w' := Enter(w, sid, phase);
    PhaseDependsOnRowsAndTable(w, w', w'.sessions[sid]);
    LocalStepKeepsInv(w, w', sid);
  }

  lemma PhaseDependsOnRowsAndTable(w: World, w': World, s: Session)
    requires w'.rows == w.rows && w'.table == w.table
    ensures PhaseOk(w', s) == PhaseOk(w, s)
  {
  }

  /** A statement that locks a free row. */
  lemma LockKeepsInv(w: World, sid: SessionId, id: RowId, phase: Phase)
    requires Inv(w) && sid in w.sessions && !w.sessions[sid].phase.Inserted? && !phase.Inserted? && id !in w.locks
    requires Holds(w.sessions[sid].(phase := phase)) == Holds(w.sessions[sid]) + {id}
    requires PhaseOk(w, w.sessions[sid].(phase := phase))
    ensures Inv(Enter(w.(locks := w.locks[id := sid]), sid, phase))
  {
    hide BooksOk, PhaseOk, Holds;
    assert SessionOk(w, sid);
    var w' := Enter(w.(locks := w.locks[id := sid]), sid, phase);
    PhaseDependsOnRowsAndTable(w, w', w'.sessions[sid]);
    LocalStepKeepsInv(w, w', sid);
  }

  /** The insertion of an unused key. */
  lemma InsertKeepsInv(w: World, sid: SessionId, phase: Phase)
    requires Inv(w) && sid in w.sessions && !w.sessions[sid].phase.Inserted? && phase.Inserted?
    requires w.sessions[sid].key !in w.inflight
    requires Holds(w.sessions[sid].(phase := phase)) == Holds(w.sessions[sid])
    requires PhaseOk(w, w.sessions[sid].(phase := phase))
    ensures Inv(Enter(w.(inflight := w.inflight[w.sessions[sid].key := sid]), sid, phase))
  {
    hide BooksOk, PhaseOk, Holds;
    assert SessionOk(w, sid);
    var w' := Enter(w.(inflight := w.inflight[w.sessions[sid].key := sid]), sid, phase);
    PhaseDependsOnRowsAndTable(w, w', w'.sessions[sid]);
    LocalStepKeepsInv(w, w', sid);
  }

  /** What the next statement leads to is right for the rows and the table as they are. */
  lemma NextStatementIsOk(w: World, s: Session)
    requires PhaseOk(w, s) && 0 < s.request.amount
    ensures var n := NextStatement(w, s);
      match n
      case Wait => true
      case End(phase) => (phase.Collided? || phase.Done?) && !s.phase.Inserted? && PhaseOk(w, s.(phase := phase))
      case Go(phase) =>
        && !s.phase.Inserted? && !phase.Inserted? && PhaseOk(w, s.(phase := phase))
        && Holds(s.(phase := phase)) == Holds(s)
      case Lock(id, phase) =>
        && !s.phase.Inserted? && !phase.Inserted? && id !in w.locks && PhaseOk(w, s.(phase := phase))
        && Holds(s.(phase := phase)) == Holds(s) + {id}
      case Insert(phase) =>
        && !s.phase.Inserted? && phase.Inserted? && s.key !in w.inflight && PhaseOk(w, s.(phase := phase))
        && Holds(s.(phase := phase)) == Holds(s)
      case CommitPayment => s.phase.Inserted?
  {
  }

  lemma SessionHolds(w: World, sid: SessionId)
    requires Inv(w) && sid in w.sessions
    ensures SessionOk(w, sid)
  {
  }

  lemma AdvanceKeepsInv(w: World, sid: SessionId, available: int, acknowledged: bool)
    requires Inv(w) && sid in w.sessions
    ensures Inv(Advance(w, sid, available, acknowledged))
  {
    hide Inv, NextStatement, PhaseOk, Holds, Enter, Released, Commit;
    SessionHolds(w, sid);
    var s := w.sessions[sid];
    NextStatementIsOk(w, s);
    match NextStatement(w, s)
    case Wait =>
    case End(phase) => EndKeepsInv(w, sid, phase);
    case Go(phase) => EnterKeepsInv(w, sid, phase);
    case Lock(id, phase) => LockKeepsInv(w, sid, id, phase);
    case Insert(phase) => InsertKeepsInv(w, sid, phase);
    case CommitPayment =>
      assert Source(s.request) in w.rows && Target(s.request) in w.rows by {
        InsertedIsFresh(w, s);
      }
      CommitKeepsInv(w, sid, available, acknowledged);
  }

  lemma InsertedIsFresh(w: World, s: Session)
    requires PhaseOk(w, s) && s.phase.Inserted?
    ensures Fresh(w, s, s.phase.source, s.phase.card) && Covered(s, s.phase.source, s.phase.card) && s.key !in w.table
    ensures Source(s.request) in Holds(s) && Target(s.request) in Holds(s)
  {
  }

  // ---------------------------------------------------------------- the commit

  /** A commit, relative to the balances as they are and not to the ones read before. */
  ghost predicate Transferred(w: World, w': World, sid: SessionId) {
    && sid in w.sessions
    && var s := w.sessions[sid];
    && var r := s.request;
    && Source(r) in w.rows && Target(r) in w.rows
    && w' == w.(rows := w'.rows, table := w'.table, inflight := w.inflight - {s.key}, locks := w.locks - Holds(s),
                sessions := w'.sessions, moves := w'.moves)
    && w'.rows.Keys == w.rows.Keys + {MirrorRow(r.card)}
    && w'.rows[Source(r)] == w.rows[Source(r)].(cleared := w.rows[Source(r)].cleared - r.amount)
    && w'.rows[Target(r)] == w.rows[Target(r)].(cleared := w.rows[Target(r)].cleared - r.amount)
    && w'.rows[MirrorRow(r.card)].cleared == w'.rows[Target(r)].cleared
    && (forall id <- w.rows :: id != Source(r) && id != Target(r) && id != MirrorRow(r.card) ==>
          w'.rows[id] == w.rows[id])
    && |w'.moves| == |w.moves| + 1
    && var m := w'.moves[|w.moves|];
    && m == Move(s.key, r, m.result) && w'.moves == w.moves + [m]
    && m.result.source == w'.rows[Source(r)].cleared && m.result.card == w'.rows[Target(r)].cleared
    && s.key !in w.table && w'.table == w.table[s.key := Some(Receipt(r, m.result))]
    && sid in w'.sessions
    && (w'.sessions[sid].phase == Done(Success(m.result)) || w'.sessions[sid].phase == Done(Conflict))
    && w'.sessions == w.sessions[sid := s.(phase := w'.sessions[sid].phase)]
  }

  lemma CommitTransfers(w: World, sid: SessionId, available: int, acknowledged: bool)
    requires sid in w.sessions && SessionOk(w, sid) && w.sessions[sid].phase.Inserted?
    requires Source(w.sessions[sid].request) in w.rows && Target(w.sessions[sid].request) in w.rows
    ensures Transferred(w, Commit(w, sid, available, acknowledged), sid)
  {
    hide PhaseOk;
    InsertedIsFresh(w, w.sessions[sid]);
  }

  lemma TransferKeepsMoves(w: World, w': World, sid: SessionId)
    requires MovesOk(w) && Transferred(w, w', sid)
    ensures MovesOk(w')
  {
    var m := w'.moves[|w.moves|];
    forall k <- w'.table | w'.table[k].Some? ensures exists o <- w'.moves :: o.key == k {
      if k == m.key {
        assert m in w'.moves;
      } else {
        var o :| o in w.moves && o.key == k;
        assert o in w'.moves;
      }
    }
  }

  lemma TransferKeepsBalances(w: World, w': World, sid: SessionId)
    requires BalancesOk(w) && Transferred(w, w', sid)
    ensures BalancesOk(w')
  {
    forall id: RowId | !id.MirrorRow?
      ensures (if id in w'.rows then w'.rows[id].cleared else 0) == OutsideOf(w', id) - Sum(w'.moves, TakenFrom(id))
    {
      SumAppend(w.moves, w'.moves[|w.moves|], TakenFrom(id));
    }
  }

  lemma HoldsAreNested(s: Session)
    ensures Holds(s) != {} ==> Source(s.request) in Holds(s)
    ensures forall id <- Holds(s) :: id.MirrorRow? ==> id.card == s.request.card && Target(s.request) in Holds(s)
    ensures s.phase.Inserted? ==> Source(s.request) in Holds(s) && Target(s.request) in Holds(s)
  {
  }

  lemma TransferDisturbsNobody(w: World, w': World, sid: SessionId, other: SessionId)
    requires sid in w.sessions && SessionOk(w, sid) && w.sessions[sid].phase.Inserted? && Transferred(w, w', sid)
    requires other in w.sessions && other != sid && SessionOk(w, other)
    ensures Undisturbed(w, w', other)
  {
    hide PhaseOk, Holds;
    HoldsAreNested(w.sessions[sid]);
    HoldsAreNested(w.sessions[other]);
    var s := w.sessions[other];
    if Holds(s) != {} {
      assert Source(s.request) != Source(w.sessions[sid].request);
    }
  }

  lemma TransferKeepsLocks(w: World, w': World, sid: SessionId)
    requires LocksOk(w) && sid in w.sessions && SessionOk(w, sid) && w.sessions[sid].phase.Inserted?
    requires Transferred(w, w', sid)
    ensures LocksOk(w')
  {
    hide PhaseOk, Holds;
  }

  lemma CommitKeepsInv(w: World, sid: SessionId, available: int, acknowledged: bool)
    requires Inv(w) && sid in w.sessions && w.sessions[sid].phase.Inserted?
    requires Source(w.sessions[sid].request) in w.rows && Target(w.sessions[sid].request) in w.rows
    ensures Inv(Commit(w, sid, available, acknowledged))
  {
    hide MovesOk, BalancesOk, LocksOk, Undisturbed, Commit, SessionOk, Transferred;
    var w' := Commit(w, sid, available, acknowledged);
    CommitTransfers(w, sid, available, acknowledged);
    TransferKeepsMoves(w, w', sid);
    TransferKeepsBalances(w, w', sid);
    TransferKeepsLocks(w, w', sid);
    TransferSessions(w, w', sid);
  }

  lemma TransferSessions(w: World, w': World, sid: SessionId)
    requires Inv(w) && sid in w.sessions && w.sessions[sid].phase.Inserted? && Transferred(w, w', sid)
    ensures forall other <- w'.sessions :: SessionOk(w', other)
  {
    hide BooksOk, LocksOk, Undisturbed, Transferred;
    TransferEnds(w, w', sid);
    forall other <- w'.sessions ensures SessionOk(w', other) {
      if other != sid {
        assert SessionOk(w, sid) && SessionOk(w, other);
        TransferDisturbsNobody(w, w', sid, other);
        UndisturbedKeeps(w, w', other);
      }
    }
  }

  lemma TransferEnds(w: World, w': World, sid: SessionId)
    requires sid in w.sessions && SessionOk(w, sid) && Transferred(w, w', sid)
    ensures w'.sessions.Keys == w.sessions.Keys && SessionOk(w', sid)
  {
  }

  // ---------------------------------------------------------- everybody's steps

  lemma CrashKeepsInv(w: World, sid: SessionId)
    requires Inv(w) && sid in w.sessions
    ensures Inv(Crash(w, sid))
  {
    hide BooksOk, PhaseOk, Holds;
    SessionHolds(w, sid);
    var s := w.sessions[sid];
    if !s.phase.Done? {
      EndedHoldsNothing(s);
      var w' := Crash(w, sid);
      assert PhaseOk(w', s.(phase := Done(Error))) by {
        DoneErrorOk(w', s);
      }
      LocalStepKeepsInv(w, w', sid);
    }
  }

  lemma DoneErrorOk(w: World, s: Session)
    ensures PhaseOk(w, s.(phase := Done(Error)))
    ensures PhaseOk(w, s.(phase := Started))
  {
  }

  lemma EndedHoldsNothing(s: Session)
    ensures Holds(s.(phase := Done(Error))) == {}
  {
  }

  lemma BeginKeepsInv(w: World, sid: SessionId, user: User, request: PaymentRequest, key: Key)
    requires Inv(w)
    ensures Inv(Next(w, Begin(sid, user, request, key)))
  {
    hide BooksOk, SessionOk, Undisturbed;
    var w' := Next(w, Begin(sid, user, request, key));
    BooksLocal(w, w');
    forall other <- w'.sessions ensures SessionOk(w', other) {
      if other in w.sessions {
        BeginDisturbsNobody(w, sid, user, request, key, other);
        UndisturbedKeeps(w, w', other);
      } else {
        BegunIsOk(w, sid, user, request, key);
      }
    }
  }

  lemma BeginDisturbsNobody(w: World, sid: SessionId, user: User, request: PaymentRequest, key: Key, other: SessionId)
    requires other in w.sessions && SessionOk(w, other)
    ensures Undisturbed(w, Next(w, Begin(sid, user, request, key)), other)
  {
    hide Holds, PhaseOk;
  }

  lemma BegunIsOk(w: World, sid: SessionId, user: User, request: PaymentRequest, key: Key)
    requires sid !in w.sessions && request.amount > 0
    ensures SessionOk(Next(w, Begin(sid, user, request, key)), sid)
  {
  }

  /** Changes of others to rows nobody has locked, and keys they take. */
  lemma OthersKeepInv(w: World, action: Action)
    requires Inv(w) && (action.ChangeRow? || action.TakeKey?)
    ensures Inv(Next(w, action))
  {
    hide BooksOk, SessionOk, Undisturbed, Holds;
    var w' := Next(w, action);
    OthersKeepBooks(w, action);
    forall sid <- w'.sessions ensures SessionOk(w', sid) {
      OthersDisturbNobody(w, action, sid);
      UndisturbedKeeps(w, w', sid);
    }
  }

  lemma OthersDisturbNobody(w: World, action: Action, sid: SessionId)
    requires sid in w.sessions && SessionOk(w, sid) && (action.ChangeRow? || action.TakeKey?)
    ensures Undisturbed(w, Next(w, action), sid)
  {
    hide PhaseOk, Holds, Unanswered;
    TakenKeyIsNoAnswer(w, Next(w, action), w.sessions[sid]);
  }

  lemma TakenKeyIsNoAnswer(w: World, w': World, s: Session)
    requires s.key !in w.table && s.key in w'.table ==> w'.table[s.key].None?
    ensures s.key !in w.table ==> Unanswered(w', s)
  {
  }

  lemma OthersKeepBooks(w: World, action: Action)
    requires BooksOk(w) && (action.ChangeRow? || action.TakeKey?)
    ensures BooksOk(Next(w, action))
  {
  }

  lemma NextKeepsInv(w: World, action: Action)
    requires Inv(w)
    ensures Inv(Next(w, action))
  {
    hide Inv, Advance, Crash;
    match action
    case Begin(sid, user, request, key) => BeginKeepsInv(w, sid, user, request, key);
    case Continue(sid, available, acknowledged) =>
      if sid in w.sessions {
        AdvanceKeepsInv(w, sid, available, acknowledged);
      }
    case Fail(sid) =>
      if sid in w.sessions {
        CrashKeepsInv(w, sid);
      }
    case _ => OthersKeepInv(w, action);
  }

  lemma {:induction false} RunKeepsInv(w: World, actions: seq<Action>)
    requires Inv(w)
    ensures Inv(Run(w, actions))
  {
    hide Inv, Next;
    if actions != [] {
      RunKeepsInv(w, actions[..|actions| - 1]);
      NextKeepsInv(Run(w, actions[..|actions| - 1]), actions[|actions| - 1]);
    }
  }
}
