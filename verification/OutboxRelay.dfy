/** The relay that publishes the audit outbox: a cursor over an append-only table, moved
    only after a whole batch was acknowledged. */
module OutboxRelay {
  import opened Options

  /** Event ids by their rank in the column's order; 0 stands for the empty text. */
  type EventId = nat

  datatype Row = Row(created: int, event: EventId)

  predicate Before(a: Row, b: Row) {
    a.created < b.created || (a.created == b.created && a.event < b.event)
  }

  datatype Checkpoint = Checkpoint(lastCreated: Option<int>, lastEvent: Option<EventId>, count: nat)

  const NEW_CHECKPOINT := Checkpoint(None, None, 0)

  predicate Beyond(r: Row, c: Checkpoint) {
    match c.lastCreated
    case None => true
    case Some(last) =>
      r.created > last || (r.created == last && r.event > if c.lastEvent.Some? then c.lastEvent.value else 0)
  }

  /** `rows`: the dated rows in the order of the query, by time and event id; `undated`:
      those without a time. `checkpoint`: the committed cursor, once there is one.
      `delivered`: the messages that reached the topic, in order. */
  datatype System = System(rows: seq<Row>, undated: set<EventId>, checkpoint: Option<Checkpoint>, delivered: seq<Row>)

  function Cursor(s: System): Checkpoint {
    if s.checkpoint.Some? then s.checkpoint.value else NEW_CHECKPOINT
  }

  /** The rows beyond the cursor, in order. */
  function Pending(rows: seq<Row>, c: Checkpoint): (r: seq<Row>)
    ensures |r| <= |rows|
    ensures forall x :: x in r <==> x in rows && Beyond(x, c)
  {
    if rows == [] then []
    else if Beyond(rows[0], c) then [rows[0]] + Pending(rows[1..], c)
    else Pending(rows[1..], c)
  }

  function Limit<T>(s: seq<T>, n: nat): seq<T> {
    if |s| <= n then s else s[..n]
  }

  function Advanced(c: Checkpoint, batch: seq<Row>): Checkpoint {
    if batch == [] then c
    else
      var last := batch[|batch| - 1];
      Checkpoint(Some(last.created), Some(last.event), c.count + |batch|)
  }

  datatype Status = Ok | DryRun | AlreadyRunning
  datatype Result =
    | RelayResult(status: Status, published: nat, lastEvent: Option<EventId>, lastCreated: Option<int>)
    | InvalidBatchSize
    | Raised

  /** What happens around one run: whether the lock is free, how many messages the topic
      takes before one fails (and whether the failed one got there after all), and
      whether the commit succeeds. */
  datatype Circumstances = Circumstances(lockFree: bool, takes: nat, lastLost: bool, commits: bool)

  function Attempt(s: System, batchSize: int, dryRun: bool, c: Circumstances): (System, Result) {
    if batchSize < 1 || batchSize > 1000 then (s, InvalidBatchSize)
    else if !c.lockFree then (s, RelayResult(AlreadyRunning, 0, None, None))
    else
      var batch := Limit(Pending(s.rows, Cursor(s)), batchSize);
      var after := Advanced(Cursor(s), batch);
      if dryRun then (s, RelayResult(DryRun, |batch|, after.lastEvent, after.lastCreated))
      else if c.takes < |batch| then
        (s.(delivered := s.delivered + batch[..if c.lastLost then c.takes + 1 else c.takes]), Raised)
      else if !c.commits then (s.(delivered := s.delivered + batch), Raised)
      else
        (s.(delivered := s.delivered + batch, checkpoint := Some(after)),
         RelayResult(Ok, |batch|, after.lastEvent, after.lastCreated))
  }

  /** The service: the loop publishes row by row, and a failure rolls the session back. */
  class AuditOutboxRelay {
    var rows: seq<Row>
    var undated: set<EventId>
    var committed: Option<Checkpoint>
    var delivered: seq<Row>

    function Store(): System
      reads this
    {
      System(rows, undated, committed, delivered)
    }

    method PendingRows(checkpoint: Checkpoint, batchSize: nat) returns (batch: seq<Row>)
      ensures batch == Limit(Pending(rows, checkpoint), batchSize)
    {
      batch := Limit(Pending(rows, checkpoint), batchSize);
    }

    method Run(batchSize: int, dryRun: bool, c: Circumstances) returns (result: Result)
      modifies this`committed, this`delivered
      ensures (Store(), result) == Attempt(old(Store()), batchSize, dryRun, c)
      ensures dryRun || !c.lockFree || !ValidSize(batchSize) ==> Store() == old(Store())
    {
      hide Pending;
      if batchSize < 1 || batchSize > 1000 {
        return InvalidBatchSize;
      }
      if !c.lockFree {
        return RelayResult(AlreadyRunning, 0, None, None);
      }
      var checkpoint := if committed.Some? then committed.value else NEW_CHECKPOINT;
      var batch := PendingRows(checkpoint, batchSize);
      if dryRun {
        var after := Advanced(checkpoint, batch);
        return RelayResult(DryRun, |batch|, after.lastEvent, after.lastCreated);
      }
      var published := 0;
      while published < |batch|
        invariant published <= |batch| && published <= c.takes && committed == old(committed)
        invariant delivered == old(delivered) + batch[..published]
      {
        assert batch[..published + 1] == batch[..published] + [batch[published]];
        if published == c.takes {
          if c.lastLost {
            delivered := delivered + [batch[published]];
          }
          assert delivered == old(delivered) + batch[..if c.lastLost then c.takes + 1 else c.takes];
          return Raised; // rolled back: the cursor stays
        }
        delivered := delivered + [batch[published]];
        published := published + 1;
      }
      assert batch[..|batch|] == batch;
      if batch != [] {
        var last := batch[|batch| - 1];
        checkpoint := Checkpoint(Some(last.created), Some(last.event), checkpoint.count + published);
      }
      if !c.commits {
        return Raised;
      }
      committed := Some(checkpoint);
      return RelayResult(Ok, published, checkpoint.lastEvent, checkpoint.lastCreated);
    }
  }

  // -------------------------------------------------------------- one attempt

  predicate ValidSize(batchSize: int) { 1 <= batchSize <= 1000 }

  /** How many rows a run with this batch size is about. */
  function BatchLength(s: System, batchSize: int): nat
    requires ValidSize(batchSize)
  {
    if |Pending(s.rows, Cursor(s))| <= batchSize then |Pending(s.rows, Cursor(s))| else batchSize
  }

  /** `last`, `at`: event and time of the last of the first `n` pending rows, or of the
      cursor if there are none. */
  predicate EndsAt(s: System, n: nat, last: Option<EventId>, at: Option<int>)
    requires n <= |Pending(s.rows, Cursor(s))|
  {
    if n == 0 then last == Cursor(s).lastEvent && at == Cursor(s).lastCreated
    else
      var row := Pending(s.rows, Cursor(s))[n - 1];
      last == Some(row.event) && at == Some(row.created)
  }

  /** Which answer a run gives. */
  lemma RelayDecision(s: System, batchSize: int, dryRun: bool, c: Circumstances)
    ensures var r := Attempt(s, batchSize, dryRun, c).1;
      && (r.InvalidBatchSize? <==> !ValidSize(batchSize))
      && (ValidSize(batchSize) ==>
            var n := BatchLength(s, batchSize);
            && (r == RelayResult(AlreadyRunning, 0, None, None) <==> !c.lockFree)
            && (r.RelayResult? && r.status == DryRun <==> c.lockFree && dryRun)
            && (r.RelayResult? && r.status == Ok <==> c.lockFree && !dryRun && n <= c.takes && c.commits)
            && (r.Raised? <==> c.lockFree && !dryRun && (c.takes < n || !c.commits))
            && (r.RelayResult? && r.status != AlreadyRunning ==>
                  r.published == n && EndsAt(s, n, r.lastEvent, r.lastCreated)))
  {
    hide Pending;
  }

  /** A dry run, a taken lock and an invalid size change nothing; else the first pending rows
      are delivered in order, as far as the topic takes them. The cursor moves only when
      all of the batch was delivered and committed, to its last row, counting each. */
  lemma RelayEffect(s: System, batchSize: int, dryRun: bool, c: Circumstances)
    ensures var (s', r) := Attempt(s, batchSize, dryRun, c);
      && (dryRun || !c.lockFree || !ValidSize(batchSize) ==> s' == s)
      && s'.rows == s.rows && s'.undated == s.undated
      && s.delivered <= s'.delivered
      && (r.Raised? ==> s'.checkpoint == s.checkpoint)
      && (ValidSize(batchSize) ==>
            var n := BatchLength(s, batchSize);
            var copies := s'.delivered[|s.delivered|..];
            && copies <= Pending(s.rows, Cursor(s))
            && |copies| == (if dryRun || !c.lockFree then 0 else if n <= c.takes then n
                            else if c.lastLost then c.takes + 1 else c.takes)
            && (r.RelayResult? && r.status == Ok ==>
                  && s'.checkpoint == Some(Cursor(s'))
                  && Cursor(s').count == Cursor(s).count + |copies|
                  && EndsAt(s, n, Cursor(s').lastEvent, Cursor(s').lastCreated)))
  {
    hide Pending;
  }

  // ---------------------------------------------------------------- every run

  predicate Ordered(rows: seq<Row>) {
    forall i, j :: 0 <= i < j < |rows| ==> Before(rows[i], rows[j])
  }

  /** A new row takes its place in the order. */
  function Insert(rows: seq<Row>, r: Row): seq<Row> {
    if rows == [] || Before(r, rows[0]) then [r] + rows else [rows[0]] + Insert(rows[1..], r)
  }

  datatype Event =
    | Append(row: Row)
    | AppendUndated(event: EventId)
    | Relay(batchSize: int, dryRun: bool, c: Circumstances)

  /** Event ids are unique; the relay relies on rows becoming visible beyond the cursor. */
  predicate Allowed(s: System, e: Event) {
    e.Append? ==> Beyond(e.row, Cursor(s)) && 0 < e.row.event && forall r <- s.rows :: r.event != e.row.event
  }

  function Next(s: System, e: Event): System {
    match e
    case Append(row) => s.(rows := Insert(s.rows, row))
    case AppendUndated(event) => s.(undated := s.undated + {event})
    case Relay(batchSize, dryRun, c) => Attempt(s, batchSize, dryRun, c).0
  }

  predicate AllowedRun(s: System, events: seq<Event>) {
    events == []
    || (AllowedRun(s, events[..|events| - 1]) && Allowed(Run(s, events[..|events| - 1]), events[|events| - 1]))
  }

  function Run(s: System, events: seq<Event>): System {
    if events == [] then s else Next(Run(s, events[..|events| - 1]), events[|events| - 1])
  }

  const EMPTY := System([], {}, None, [])

  /** The cursor stands behind the first `count` rows. */
  predicate Placed(rows: seq<Row>, c: Checkpoint) {
    && Ordered(rows)
    && c.count <= |rows|
    && (c.lastCreated.Some? <==> c.count > 0)
    && (c.lastEvent.Some? <==> c.count > 0)
    && (c.count > 0 ==> rows[c.count - 1] == Row(c.lastCreated.value, c.lastEvent.value))
  }

  /** Every row behind the cursor was delivered, and nothing but rows of the outbox. */
  predicate Inv(s: System) {
    var c := Cursor(s);
    && Placed(s.rows, c)
    && (forall i :: 0 <= i < c.count ==> s.rows[i] in s.delivered)
    && (forall r <- s.delivered :: r in s.rows)
  }

  lemma BeyondIsAfter(rows: seq<Row>, c: Checkpoint, i: nat)
    requires Placed(rows, c) && i < |rows|
    ensures Beyond(rows[i], c) <==> c.count <= i
  {
    if c.count > 0 && i != c.count - 1 {
      assert if i < c.count - 1 then Before(rows[i], rows[c.count - 1]) else Before(rows[c.count - 1], rows[i]);
    }
  }

  lemma {:induction false} PendingOfSplit(rows: seq<Row>, c: Checkpoint, n: nat)
    requires n <= |rows| && forall i :: 0 <= i < |rows| ==> (Beyond(rows[i], c) <==> n <= i)
    ensures Pending(rows, c) == rows[n..]
  {
    if rows != [] {
      if n == 0 {
        PendingOfSplit(rows[1..], c, 0);
      } else {
        PendingOfSplit(rows[1..], c, n - 1);
      }
    }
  }

  /** The pending rows are exactly those after the first `count`. */
  lemma PendingIsTail(s: System)
    requires Inv(s)
    ensures Cursor(s).count <= |s.rows|
    ensures Pending(s.rows, Cursor(s)) == s.rows[Cursor(s).count..]
  {
    forall i: nat | i < |s.rows| ensures Beyond(s.rows[i], Cursor(s)) <==> Cursor(s).count <= i {
      BeyondIsAfter(s.rows, Cursor(s), i);
    }
    PendingOfSplit(s.rows, Cursor(s), Cursor(s).count);
  }

  lemma {:induction false} InsertAddsRow(rows: seq<Row>, r: Row)
    ensures |Insert(rows, r)| == |rows| + 1
    ensures forall x :: x in Insert(rows, r) <==> x == r || x in rows
  {
    if rows != [] && !Before(r, rows[0]) {
      InsertAddsRow(rows[1..], r);
    }
  }

  lemma {:induction false} InsertKeepsOrder(rows: seq<Row>, r: Row)
    requires Ordered(rows) && forall x <- rows :: x.event != r.event
    ensures Ordered(Insert(rows, r))
  {
    if rows != [] && !Before(r, rows[0]) {
      InsertKeepsOrder(rows[1..], r);
      InsertAddsRow(rows[1..], r);
      var rest := Insert(rows[1..], r);
      forall j | 0 <= j < |rest| ensures Before(rows[0], rest[j]) {
        assert rest[j] in rest;
        assert rest[j] == r || rest[j] in rows[1..];
      }
    }
  }

  /** A row beyond the first `n` ordered rows takes its place after them. */
  lemma {:induction false} InsertKeepsPrefix(rows: seq<Row>, r: Row, n: nat)
    requires Ordered(rows) && n <= |rows| && (n > 0 ==> Before(rows[n - 1], r))
    ensures |Insert(rows, r)| == |rows| + 1 && Insert(rows, r)[..n] == rows[..n]
  {
    InsertAddsRow(rows, r);
    if n > 0 {
      assert Before(rows[0], r) by {
        assert n > 1 ==> Before(rows[0], rows[n - 1]);
      }
      InsertKeepsPrefix(rows[1..], r, n - 1);
      assert rows[..n] == [rows[0]] + rows[1..][..n - 1];
      assert Insert(rows, r)[..n] == [rows[0]] + Insert(rows[1..], r)[..n - 1];
    }
  }

  lemma AppendKeepsInv(s: System, row: Row)
    requires Inv(s) && Allowed(s, Append(row))
    ensures Inv(Next(s, Append(row)))
  {
    hide Ordered, Insert;
    var n := Cursor(s).count;
    InsertKeepsPrefix(s.rows, row, n);
    InsertKeepsOrder(s.rows, row);
    InsertAddsRow(s.rows, row);
    var rows' := Insert(s.rows, row);
    forall i | 0 <= i < n ensures rows'[i] == s.rows[i] {
      assert rows'[i] == rows'[..n][i] && s.rows[i] == s.rows[..n][i];
    }
  }

  /** More copies of rows of the outbox are delivered. */
  lemma DeliveryKeepsInv(s: System, copies: seq<Row>)
    requires Inv(s) && forall r <- copies :: r in s.rows
    ensures Inv(s.(delivered := s.delivered + copies))
  {
  }

  /** The cursor moves over rows that were delivered. */
  lemma CursorKeepsInv(s: System, k: nat)
    requires Inv(s) && Cursor(s).count + k <= |s.rows|
    requires forall i :: Cursor(s).count <= i < Cursor(s).count + k ==> s.rows[i] in s.delivered
    ensures Inv(s.(checkpoint := Some(Advanced(Cursor(s), s.rows[Cursor(s).count..][..k]))))
  {
    assert k > 0 ==> s.rows[Cursor(s).count..][..k][k - 1] == s.rows[Cursor(s).count + k - 1];
  }

  lemma RelayKeepsInv(s: System, batchSize: int, dryRun: bool, c: Circumstances)
    requires Inv(s)
    ensures Inv(Attempt(s, batchSize, dryRun, c).0)
  {
    hide Inv, Placed, Pending, Advanced;
    var s' := Attempt(s, batchSize, dryRun, c).0;
    if s' != s {
      PendingIsTail(s);
      var n := Cursor(s).count;
      var batch := Limit(s.rows[n..], batchSize);
      var copies := s'.delivered[|s.delivered|..];
      assert forall r <- copies :: r in batch;
      DeliveryKeepsInv(s, copies);
      if s'.checkpoint != s.checkpoint {
        assert copies == batch;
        assert forall i :: n <= i < n + |batch| ==> s.rows[i] == batch[i - n];
        CursorKeepsInv(s.(delivered := s.delivered + copies), |batch|);
        assert batch == s.rows[n..][..|batch|];
      }
    }
  }

  /** Over every allowed run. */
  lemma {:induction false} RunKeepsInv(s: System, events: seq<Event>)
    requires Inv(s) && AllowedRun(s, events)
    ensures Inv(Run(s, events))
  {
    if events != [] {
      var earlier := events[..|events| - 1];
      RunKeepsInv(s, earlier);
      var e := events[|events| - 1];
      match e
      case Append(row) => AppendKeepsInv(Run(s, earlier), row);
      case AppendUndated(_) =>
      case Relay(batchSize, dryRun, c) => RelayKeepsInv(Run(s, earlier), batchSize, dryRun, c);
    }
  }

  /** The number of rows at or below the cursor. */
  function AtOrBelow(rows: seq<Row>, c: Checkpoint): nat {
    if rows == [] then 0 else (if Beyond(rows[0], c) then 0 else 1) + AtOrBelow(rows[1..], c)
  }

  lemma {:induction false} AtOrBelowIsRest(rows: seq<Row>, c: Checkpoint)
    ensures AtOrBelow(rows, c) + |Pending(rows, c)| == |rows|
  {
    if rows != [] {
      AtOrBelowIsRest(rows[1..], c);
    }
  }

  /** At least once: whatever succeeds or fails in between, every row at or below the
      cursor was delivered, `published_count` counts exactly those rows, and nothing but
      dated rows of the outbox is ever delivered. */
  lemma DeliveredAtLeastOnce(events: seq<Event>)
    requires AllowedRun(EMPTY, events)
    ensures var s := Run(EMPTY, events); var c := Cursor(s);
      && (forall r <- s.rows :: !Beyond(r, c) ==> r in s.delivered)
      && c.count == AtOrBelow(s.rows, c)
      && (forall r <- s.delivered :: r in s.rows)
  {
    RunKeepsInv(EMPTY, events);
    var s := Run(EMPTY, events);
    var c := Cursor(s);
    PendingIsTail(s);
    AtOrBelowIsRest(s.rows, c);
    forall r <- s.rows | !Beyond(r, c) ensures r in s.delivered {
      var i :| 0 <= i < |s.rows| && s.rows[i] == r;
      BeyondIsAfter(s.rows, c, i);
    }
  }

  // ------------------------------------------------------- cursor and draining

  lemma CursorMovesForward(s: System, e: Event, r: Row)
    requires Beyond(r, Cursor(Next(s, e)))
    ensures Beyond(r, Cursor(s))
  {
    if e.Relay? && Cursor(Next(s, e)) != Cursor(s) {
      var batch := Limit(Pending(s.rows, Cursor(s)), e.batchSize);
      assert batch[|batch| - 1] in Pending(s.rows, Cursor(s));
    }
  }

  /** The cursor never moves back: what is beyond a later cursor was beyond every earlier
      one. This needs no assumption on how rows are appended. */
  lemma {:induction false} CursorNeverMovesBack(s: System, events: seq<Event>, r: Row)
    requires Beyond(r, Cursor(Run(s, events)))
    ensures Beyond(r, Cursor(s))
  {
    if events != [] {
      var n := |events| - 1;
      CursorMovesForward(Run(s, events[..n]), events[n], r);
      CursorNeverMovesBack(s, events[..n], r);
    }
  }

  /** So a row that becomes visible at or below the cursor is never delivered: the
      ordering of appends is not only sufficient but needed. */
  lemma {:induction false} LateRowIsSkipped(s: System, events: seq<Event>, r: Row)
    requires !Beyond(r, Cursor(s))
    ensures var delivered := Run(s, events).delivered;
      |s.delivered| <= |delivered| && r !in delivered[|s.delivered|..]
  {
    if events != [] {
      var n := |events| - 1;
      var before, after := Run(s, events[..n]), Run(s, events);
      LateRowIsSkipped(s, events[..n], r);
      if Beyond(r, Cursor(before)) {
        CursorNeverMovesBack(s, events[..n], r);
      }
      NextDeliversPending(before, events[n]);
      assert after.delivered[|s.delivered|..]
        == before.delivered[|s.delivered|..] + after.delivered[|before.delivered|..];
    }
  }

  lemma NextDeliversPending(s: System, e: Event)
    ensures var s' := Next(s, e);
      && s.delivered <= s'.delivered
      && forall x <- s'.delivered[|s.delivered|..] :: Beyond(x, Cursor(s))
  {
  }

  const FINE := Circumstances(true, 1000, false, true)

  function Drained(s: System, batchSize: int, runs: nat): System {
    if runs == 0 then s else Attempt(Drained(s, batchSize, runs - 1), batchSize, false, FINE).0
  }

  /** The number of batches `n` rows make. */
  function Batches(n: int, batchSize: int): nat
    requires 0 < batchSize
    decreases n
  {
    if n <= 0 then 0 else 1 + Batches(n - batchSize, batchSize)
  }

  /** What is left of `n` rows after some batches. */
  function Left(n: nat, batchSize: int, runs: nat): nat
    requires 0 < batchSize
  {
    if runs == 0 then n
    else
      var before := Left(n, batchSize, runs - 1);
      if before <= batchSize then 0 else before - batchSize
  }

  lemma {:induction false} LeftAfterFirst(n: nat, batchSize: int, runs: nat)
    requires 0 < batchSize
    ensures Left(n, batchSize, runs + 1) == Left(if n <= batchSize then 0 else n - batchSize, batchSize, runs)
  {
    if runs > 0 {
      LeftAfterFirst(n, batchSize, runs - 1);
    }
  }

  lemma {:induction false} NothingLeft(n: nat, batchSize: int, runs: nat)
    requires 0 < batchSize
    ensures Left(n, batchSize, runs) == 0 <==> Batches(n, batchSize) <= runs
  {
    if runs > 0 {
      LeftAfterFirst(n, batchSize, runs - 1);
      NothingLeft(if n <= batchSize then 0 else n - batchSize, batchSize, runs - 1);
    }
  }

  lemma MultipleIsFar(k: int, b: int)
    requires 0 < b
    ensures k >= 1 ==> k * b >= b
    ensures k <= -1 ==> k * b <= -b
  {
    if k >= 1 {
      assert (k - 1) * b >= 0;
    } else if k <= -1 {
      assert (-k - 1) * b >= 0;
    }
  }

  lemma QuotientIs(a: int, b: int, q: int)
    requires 0 < b && q * b <= a < q * b + b
    ensures a / b == q
  {
    var k := a / b - q;
    assert k * b == (a / b) * b - q * b;
    MultipleIsFar(k, b);
  }

  lemma {:induction false} BatchesIsCeiling(n: nat, batchSize: int)
    requires 0 < batchSize
    ensures Batches(n, batchSize) == (n + batchSize - 1) / batchSize
    decreases n
  {
    if n <= batchSize {
      assert n > 0 ==> Batches(n - batchSize, batchSize) == 0;
      QuotientIs(n + batchSize - 1, batchSize, if n == 0 then 0 else 1);
    } else {
      BatchesIsCeiling(n - batchSize, batchSize);
      var d := (n - 1) / batchSize;
      assert (d + 1) * batchSize == d * batchSize + batchSize;
      QuotientIs(n + batchSize - 1, batchSize, d + 1);
    }
  }

  lemma {:induction false} EachRunTakesABatch(s: System, batchSize: int, runs: nat)
    requires Inv(s) && 1 <= batchSize <= 1000
    ensures var s' := Drained(s, batchSize, runs);
      Inv(s') && |Pending(s'.rows, Cursor(s'))| == Left(|Pending(s.rows, Cursor(s))|, batchSize, runs)
  {
    hide Inv, Placed, Pending;
    if runs > 0 {
      EachRunTakesABatch(s, batchSize, runs - 1);
      var before := Drained(s, batchSize, runs - 1);
      RelayKeepsInv(before, batchSize, false, FINE);
      PendingIsTail(before);
      PendingIsTail(Drained(s, batchSize, runs));
    }
  }

  /** Draining `n` pending rows takes exactly the ceiling of `n / batchSize` successful
      runs: after that many nothing is pending, after fewer something is. */
  lemma DrainingTakesCeiling(s: System, batchSize: int, runs: nat)
    requires Inv(s) && 1 <= batchSize <= 1000
    ensures var n := |Pending(s.rows, Cursor(s))|; var s' := Drained(s, batchSize, runs);
      Pending(s'.rows, Cursor(s')) == [] <==> (n + batchSize - 1) / batchSize <= runs
  {
    hide Inv, Pending, Drained;
    EachRunTakesABatch(s, batchSize, runs);
    BatchesIsCeiling(|Pending(s.rows, Cursor(s))|, batchSize);
    NothingLeft(|Pending(s.rows, Cursor(s))|, batchSize, runs);
  }
}
