/** The registry of voice sessions and its capacity, between any two await points. A
    cancelled predecessor may clean up late, while its replacement is live. */
module VoiceSessions {
  import opened Options
  import opened Sums

  type Room = string
  type TaskId = nat
  datatype Mode = Audio | Video

  /** `Scheduled`: created, its first step not taken; a cancellation then ends it without
      running its cleanup. */
  datatype Stage = Scheduled | Running | Ended
  datatype Task = Task(room: Room, stage: Stage, cancelled: bool)

  /** A start that holds the lock and waits for the task it replaces. */
  datatype Starter = Starter(room: Room, mode: Mode, replaced: TaskId)

  datatype Limits = Limits(max: int, audio: int, video: int) {
    predicate Valid() { 1 <= max && 1 <= audio && 1 <= video }
    function Units(m: Mode): int { if m == Audio then audio else video }
  }

  /** Tasks are numbered in the order of their creation. */
  datatype State = State(
    limits: Limits,
    sessions: map<Room, TaskId>,
    reservations: map<Room, int>,
    tasks: seq<Task>,
    lock: Option<Starter>)

  datatype Outcome = Waiting | Launched(task: TaskId) | Rejected | AlreadyReserved

  ghost function Used(s: State): int { Total(s.reservations) }

  ghost function Reserve(s: State, room: Room, mode: Mode): (State, Outcome) {
    var units := s.limits.Units(mode);
    if room in s.reservations then (s, AlreadyReserved)
    else if Used(s) + units > s.limits.max then (s, Rejected)
    else
      (s.(reservations := s.reservations[room := units], sessions := s.sessions[room := |s.tasks|],
          tasks := s.tasks + [Task(room, Scheduled, false)]),
       Launched(|s.tasks|))
  }

  /** A start takes the lock; it drops the room's session and waits for it to end. */
  ghost function Begin(s: State, room: Room, mode: Mode): (State, Outcome)
    requires s.lock.None?
    requires room in s.sessions ==> s.sessions[room] < |s.tasks|
  {
    if room !in s.sessions then Reserve(s, room, mode)
    else
      var replaced := s.sessions[room];
      (s.(sessions := s.sessions - {room}, reservations := s.reservations - {room},
          tasks := s.tasks[replaced := s.tasks[replaced].(cancelled := true)],
          lock := Some(Starter(room, mode, replaced))),
       Waiting)
  }

  /** The task replaced has ended, or the wait timed out. */
  ghost function Resume(s: State): (State, Outcome)
    requires s.lock.Some?
  {
    Reserve(s.(lock := None), s.lock.value.room, s.lock.value.mode)
  }

  /** The end of a task, with the cleanup of its wrapper if that was ever entered. */
  function End(s: State, t: TaskId): State
    requires t < |s.tasks|
  {
    var task := s.tasks[t];
    var ended := s.(tasks := s.tasks[t := task.(stage := Ended)]);
    if task.stage == Running && task.room in s.sessions && s.sessions[task.room] == t
    then ended.(sessions := s.sessions - {task.room}, reservations := s.reservations - {task.room})
    else ended
  }

  datatype Step =
    | Start(room: Room, mode: Mode)
    | Continue
    | Run(t: TaskId)
    | Finish(t: TaskId)

  /** One step of anybody between two awaits; impossible ones change nothing. A running
      task may end at any time, a scheduled one only when it was cancelled. */
  ghost function Next(s: State, step: Step): State
    requires forall room <- s.sessions :: s.sessions[room] < |s.tasks|
  {
    match step
    case Start(room, mode) => if s.lock.None? then Begin(s, room, mode).0 else s
    case Continue => if s.lock.Some? then Resume(s).0 else s
    case Run(t) =>
      if t < |s.tasks| && s.tasks[t].stage == Scheduled
      then s.(tasks := s.tasks[t := s.tasks[t].(stage := Running)]) else s
    case Finish(t) =>
      if t < |s.tasks| && (s.tasks[t].stage == Running || (s.tasks[t].stage == Scheduled && s.tasks[t].cancelled))
      then End(s, t) else s
  }

  // --------------------------------------------------------------- invariant

  /** A registered task is the newest of its room, not cancelled and not ended. */
  predicate Newest(s: State, room: Room, t: TaskId) {
    && t < |s.tasks| && s.tasks[t].room == room && s.tasks[t].stage != Ended && !s.tasks[t].cancelled
    && forall u :: t < u < |s.tasks| ==> s.tasks[u].room != room
  }

  /** The task goes on: it has not ended and was not told to. */
  predicate GoesOn(task: Task) {
    task.stage != Ended && !task.cancelled
  }

  predicate IsSession(s: State, t: TaskId)
    requires t < |s.tasks|
  {
    s.tasks[t].room in s.sessions && s.sessions[s.tasks[t].room] == t
  }

  ghost predicate Inv(s: State) {
    && s.limits.Valid()
    && (forall t :: 0 <= t < |s.tasks| ==> (GoesOn(s.tasks[t]) <==> IsSession(s, t)))
    && s.sessions.Keys == s.reservations.Keys
    && (forall room <- s.sessions :: Newest(s, room, s.sessions[room]))
    && (forall room <- s.reservations ::
          s.reservations[room] == s.limits.audio || s.reservations[room] == s.limits.video)
    && Used(s) <= s.limits.max
    && (s.lock.Some? ==> s.lock.value.room !in s.sessions)
  }

  lemma ReleaseKeepsBound(s: State, room: Room)
    requires Inv(s) && room in s.reservations
    ensures Total(s.reservations - {room}) == Used(s) - s.reservations[room] <= s.limits.max
  {
    TotalRemove(s.reservations, room);
  }

  /** A task created later than all others is the newest of its room. */
  lemma LaunchedIsNewest(s: State, s': State, room: Room)
    requires forall r <- s.sessions :: Newest(s, r, s.sessions[r])
    requires s'.tasks == s.tasks + [Task(room, Scheduled, false)] && s'.sessions == s.sessions[room := |s.tasks|]
    ensures forall r <- s'.sessions :: Newest(s', r, s'.sessions[r])
  {
  }

  lemma ReserveKeepsInv(s: State, room: Room, mode: Mode)
    requires Inv(s) && s.lock.None? && room !in s.sessions
    ensures Inv(Reserve(s, room, mode).0) && !Reserve(s, room, mode).1.AlreadyReserved?
  {
    hide Newest, Total;
    if Reserve(s, room, mode).1.Launched? {
      LaunchedIsNewest(s, Reserve(s, room, mode).0, room);
    }
    TotalInsert(s.reservations, room, s.limits.Units(mode));
  }

  lemma BeginKeepsInv(s: State, room: Room, mode: Mode)
    requires Inv(s) && s.lock.None?
    ensures Inv(Begin(s, room, mode).0) && !Begin(s, room, mode).1.AlreadyReserved?
  {
    hide Total;
    if room in s.sessions {
      ReleaseKeepsBound(s, room);
    } else {
      ReserveKeepsInv(s, room, mode);
    }
  }

  lemma EndKeepsInv(s: State, t: TaskId)
    requires Inv(s) && t < |s.tasks|
    requires s.tasks[t].stage == Running || (s.tasks[t].stage == Scheduled && s.tasks[t].cancelled)
    ensures Inv(End(s, t))
  {
    hide Total;
    var room := s.tasks[t].room;
    if room in s.sessions && s.sessions[room] == t {
      ReleaseKeepsBound(s, room);
    }
  }

  lemma NextKeepsInv(s: State, step: Step)
    requires Inv(s)
    ensures Inv(Next(s, step))
  {
    hide Reserve, Begin, End, Used;
    match step
    case Start(room, mode) =>
      if s.lock.None? {
        BeginKeepsInv(s, room, mode);
      }
    case Continue =>
      if s.lock.Some? {
        UnlockKeepsInv(s);
        ReserveKeepsInv(s.(lock := None), s.lock.value.room, s.lock.value.mode);
      }
    case Run(t) =>
      RunKeepsInv(s, t);
    case Finish(t) =>
      if t < |s.tasks| && (s.tasks[t].stage == Running || (s.tasks[t].stage == Scheduled && s.tasks[t].cancelled)) {
        EndKeepsInv(s, t);
      }
  }

  lemma UnlockKeepsInv(s: State)
    requires Inv(s)
    ensures Inv(s.(lock := None))
  {
  }

  lemma RunKeepsInv(s: State, t: TaskId)
    requires Inv(s)
    ensures Inv(Next(s, Run(t)))
  {
  }

  /** The states an interleaving passes through. */
  ghost predicate Interleaving(states: seq<State>, steps: seq<Step>) {
    && |states| == |steps| + 1
    && forall i :: 0 <= i < |steps| ==>
         && (forall room <- states[i].sessions :: states[i].sessions[room] < |states[i].tasks|)
         && states[i + 1] == Next(states[i], steps[i])
  }

  ghost predicate Initial(s: State) {
    s.limits.Valid() && s == State(s.limits, map[], map[], [], None)
  }

  /** At every await point of every interleaving the rooms with a session are exactly the
      rooms holding capacity, each session is the newest task of its room, and the
      reserved units stay within the maximum. */
  lemma {:induction false} RegistryIsSound(states: seq<State>, steps: seq<Step>, i: nat)
    requires Interleaving(states, steps) && Initial(states[0]) && i < |states|
    ensures Inv(states[i])
  {
    hide Inv, Next, Initial;
    if i == 0 {
      InitialInv(states[0]);
    } else {
      RegistryIsSound(states, steps, i - 1);
      NextKeepsInv(states[i - 1], steps[i - 1]);
    }
  }

  lemma InitialInv(s: State)
    requires Initial(s)
    ensures Inv(s)
  {
  }

  /** Whoever was replaced is told to stop: at every await point of every interleaving the
      tasks that go on are exactly the sessions, so that a room has at most one. */
  lemma OneTaskGoesOn(states: seq<State>, steps: seq<Step>, i: nat, t: TaskId, u: TaskId)
    requires Interleaving(states, steps) && Initial(states[0]) && i < |states|
    requires t < |states[i].tasks| && u < |states[i].tasks|
    ensures var s := states[i];
      && (GoesOn(s.tasks[t]) <==> IsSession(s, t))
      && (GoesOn(s.tasks[t]) && GoesOn(s.tasks[u]) && s.tasks[t].room == s.tasks[u].room ==> t == u)
  {
    RegistryIsSound(states, steps, i);
  }

  /** Task `t` is not the session of its room. */
  predicate Superseded(s: State, t: TaskId) {
    t < |s.tasks| && !IsSession(s, t)
  }

  lemma SupersededStays(s: State, step: Step, t: TaskId)
    requires Inv(s) && Superseded(s, t)
    ensures var s' := Next(s, step);
      && Superseded(s', t) && s'.tasks[t].room == s.tasks[t].room
      && (step == Finish(t) ==> s' == s.(tasks := s'.tasks))
  {
    hide Used;
  }

  /** Once replaced or ended, a task is never a session again, and whenever its late
      cleanup runs it touches neither the registry nor the capacity. */
  lemma {:induction false} LateCleanupChangesNothing(states: seq<State>, steps: seq<Step>, i: nat, j: nat, t: TaskId)
    requires Interleaving(states, steps) && Initial(states[0]) && i <= j < |states|
    requires Superseded(states[i], t)
    ensures Superseded(states[j], t)
    ensures j < |steps| && steps[j] == Finish(t) ==>
      states[j + 1].sessions == states[j].sessions && states[j + 1].reservations == states[j].reservations
    decreases j
  {
    hide Inv, Next, Superseded, Initial;
    if i < j {
      LateCleanupChangesNothing(states, steps, i, j - 1, t);
      RegistryIsSound(states, steps, j - 1);
      SupersededStays(states[j - 1], steps[j - 1], t);
    }
    RegistryIsSound(states, steps, j);
    if j < |steps| {
      SupersededStays(states[j], steps[j], t);
    }
  }

  /** No capacity leaks: whoever holds a reservation is a task that has not ended. */
  lemma ReservationsAreLive(states: seq<State>, steps: seq<Step>, i: nat, room: Room)
    requires Interleaving(states, steps) && Initial(states[0]) && i < |states| && room in states[i].reservations
    ensures var s := states[i];
      room in s.sessions && s.sessions[room] < |s.tasks| && s.tasks[s.sessions[room]].room == room
      && s.tasks[s.sessions[room]].stage != Ended
  {
    RegistryIsSound(states, steps, i);
  }

  // ---------------------------------------------------------------- admission

  /** While a start waits with the lock, others can only give capacity back. */
  lemma {:induction false} WaitingOnlyFrees(states: seq<State>, steps: seq<Step>)
    requires Interleaving(states, steps) && Inv(states[0]) && states[0].lock.Some?
    requires forall step <- steps :: !step.Continue?
    ensures var last := states[|steps|];
      Inv(last) && last.lock == states[0].lock && Used(last) <= Used(states[0]) && last.limits == states[0].limits
  {
    hide Inv, Used;
    if steps != [] {
      var n := |steps| - 1;
      WaitingOnlyFrees(states[..n + 1], steps[..n]);
      NextKeepsInv(states[n], steps[n]);
      OneStepFrees(states[n], steps[n]);
    }
  }

  lemma OneStepFrees(s: State, step: Step)
    requires Inv(s) && s.lock.Some? && !step.Continue?
    ensures Next(s, step).lock == s.lock && Used(Next(s, step)) <= Used(s) && Next(s, step).limits == s.limits
  {
    hide Newest;
    if step.Finish? && step.t < |s.tasks| && s.tasks[step.t].room in s.reservations {
      ReleaseKeepsBound(s, s.tasks[step.t].room);
    }
  }

  /** A start is launched or rejected, and rejected only for want of capacity beside the
      other rooms: a room that reconnects needing no more than it had is never rejected,
      whatever runs while it waits for its old task. */
  lemma ReconnectIsLaunched(states: seq<State>, steps: seq<Step>, s: State, room: Room, mode: Mode)
    requires Inv(s) && s.lock.None? && room in s.sessions
    requires s.limits.Units(mode) <= s.reservations[room]
    requires Interleaving(states, steps) && states[0] == Begin(s, room, mode).0
    requires forall step <- steps :: !step.Continue?
    ensures var last := states[|steps|];
      && last.lock.Some? && Resume(last).1 == Launched(|last.tasks|)
      && room in Resume(last).0.sessions && Resume(last).0.sessions[room] == |last.tasks|
  {
    BeginKeepsInv(s, room, mode);
    ReleaseKeepsBound(s, room);
    WaitingOnlyFrees(states, steps);
  }

  /** Exactly when a start is admitted. */
  lemma AdmissionDecision(s: State, room: Room, mode: Mode)
    requires Inv(s) && s.lock.None? && room !in s.sessions
    ensures var (s', outcome) := Begin(s, room, mode);
      var units := if mode == Audio then s.limits.audio else s.limits.video;
      && outcome == (if Used(s) + units <= s.limits.max then Launched(|s.tasks|) else Rejected)
      && (outcome.Launched? ==> Used(s') == Used(s) + units && s'.sessions == s.sessions[room := |s.tasks|])
  {
    TotalInsert(s.reservations, room, s.limits.Units(mode));
  }

  /** The room a step is about. */
  function RoomOf(s: State, step: Step): Option<Room> {
    match step
    case Start(room, _) => Some(room)
    case Continue => if s.lock.Some? then Some(s.lock.value.room) else None
    case Run(t) => if t < |s.tasks| then Some(s.tasks[t].room) else None
    case Finish(t) => if t < |s.tasks| then Some(s.tasks[t].room) else None
  }

  /** Limits, session and reservation of a room are the same. */
  predicate SameRoom(s: State, s': State, room: Room) {
    && s'.limits == s.limits
    && (room in s'.sessions <==> room in s.sessions) && (room in s.sessions ==> s'.sessions[room] == s.sessions[room])
    && (room in s'.reservations <==> room in s.reservations)
    && (room in s.reservations ==> s'.reservations[room] == s.reservations[room])
  }

  lemma ReserveTouchesOnly(s: State, room: Room, mode: Mode, other: Room)
    requires room != other
    ensures SameRoom(s, Reserve(s, room, mode).0, other)
  {
    hide Used;
  }

  lemma EndTouchesOnly(s: State, t: TaskId, other: Room)
    requires t < |s.tasks| && s.tasks[t].room != other
    ensures SameRoom(s, End(s, t), other)
  {
  }

  /** A step changes sessions and reservations of one room at most. */
  lemma OtherRoomsStay(s: State, step: Step, s': State, room: Room)
    requires Inv(s) && s' == Next(s, step) && Some(room) != RoomOf(s, step)
    ensures SameRoom(s, s', room)
  {
    assert forall r <- s.sessions :: s.sessions[r] < |s.tasks|;
    hide Inv, Used, Reserve, End;
    match step
    case Start(started, mode) => ReserveTouchesOnly(s, started, mode, room);
    case Continue =>
      if s.lock.Some? {
        ReserveTouchesOnly(s.(lock := None), s.lock.value.room, s.lock.value.mode, room);
      }
    case Run(_) =>
    case Finish(t) =>
      if t < |s.tasks| {
        EndTouchesOnly(s, t, room);
      }
  }

  /** What may become of a task in one step: its stage moves by its own step only, and it is
      told to stop only as the session that a start replaces. */
  predicate TaskMoves(s: State, step: Step, s': State, t: TaskId)
    requires t < |s.tasks| && t < |s'.tasks|
  {
    && s'.tasks[t].room == s.tasks[t].room
    && s'.tasks[t].stage == (if step == Run(t) && s.tasks[t].stage == Scheduled then Running
                             else if step == Finish(t) && (s.tasks[t].stage == Running || s.tasks[t].cancelled)
                              then Ended
                             else s.tasks[t].stage)
    && (s'.tasks[t].cancelled <==>
          s.tasks[t].cancelled || (step.Start? && s.lock.None? && s.tasks[t].room == step.room && IsSession(s, t)))
  }

  lemma TasksMove(s: State, step: Step, s': State, t: TaskId)
    requires Inv(s) && s' == Next(s, step) && t < |s.tasks|
    ensures t < |s'.tasks| && TaskMoves(s, step, s', t)
  {
    hide Used;
    match step
    case Start(room, mode) =>
      if s.lock.None? && room in s.sessions {
        assert IsSession(s, s.sessions[room]);
      }
    case _ =>
  }

  /** How a start goes on once its room is free, after a wait (`Continue`) or at once: with
      room for its units it holds exactly these and has a new task; without, nothing is
      taken. Either way the lock is free again. */
  lemma LaunchOrReject(s: State, step: Step, room: Room, mode: Mode, s': State)
    requires Inv(s) && s' == Next(s, step)
    requires || (step == Start(room, mode) && s.lock.None? && room !in s.sessions)
             || (step.Continue? && s.lock.Some? && s.lock.value.room == room && s.lock.value.mode == mode)
    ensures s'.lock.None?
    ensures var units := if mode == Audio then s.limits.audio else s.limits.video;
      if Used(s) + units <= s.limits.max then
        && s'.reservations == s.reservations[room := units]
        && s'.sessions == s.sessions[room := |s.tasks|]
        && s'.tasks == s.tasks + [Task(room, Scheduled, false)]
        && Used(s') == Used(s) + units
      else s' == s.(lock := None)
  {
    hide Newest;
    TotalInsert(s.reservations, room, s.limits.Units(mode));
  }

  /** A start for a room with a session gives its units back, tells its task to stop, and
      waits with the lock; a start that finds the lock taken changes nothing yet. */
  lemma ReplacementWaits(s: State, room: Room, mode: Mode, s': State)
    requires Inv(s) && s' == Next(s, Start(room, mode))
    ensures s.lock.Some? ==> s' == s
    ensures s.lock.None? && room in s.sessions ==>
              && s'.lock == Some(Starter(room, mode, s.sessions[room])) && s'.tasks[s.sessions[room]].cancelled
              && room !in s'.sessions && room !in s'.reservations && |s'.tasks| == |s.tasks|
              && Used(s') == Used(s) - s.reservations[room]
  {
    if s.lock.None? && room in s.sessions {
      ReleaseKeepsBound(s, room);
    }
  }

  /** The end of a task gives its room and its units back exactly if it is still the session. */
  lemma EndReleasesOwn(s: State, t: TaskId, s': State)
    requires Inv(s) && t < |s.tasks| && s.tasks[t].stage == Running && s' == Next(s, Finish(t))
    ensures s'.lock == s.lock && s'.tasks == s.tasks[t := s.tasks[t].(stage := Ended)]
    ensures IsSession(s, t) ==>
              && s'.sessions == s.sessions - {s.tasks[t].room}
              && Used(s') == Used(s) - s.reservations[s.tasks[t].room]
    ensures !IsSession(s, t) ==> s'.sessions == s.sessions && s'.reservations == s.reservations
  {
    if IsSession(s, t) {
      ReleaseKeepsBound(s, s.tasks[t].room);
    }
  }

  // ------------------------------------------------------------- the service

  class VoiceService {
    const limits: Limits
    var activeSessions: map<Room, TaskId>
    var reservations: map<Room, int>
    var tasks: seq<Task>
    var lock: Option<Starter>

    ghost function Store(): State
      reads this
    {
      State(limits, activeSessions, reservations, tasks, lock)
    }

    constructor (limits: Limits)
      requires limits.Valid()
      ensures Store() == State(limits, map[], map[], [], None) && Inv(Store())
    {
      this.limits := limits;
      activeSessions, reservations, tasks, lock := map[], map[], [], None;
    }

    method UsedUnits() returns (used: int)
      ensures used == Used(Store())
    {
      used := 0;
      var left := reservations;
      while left != map[]
        invariant used + Total(left) == Total(reservations)
        decreases |left|
      {
        var room :| room in left;
        TotalRemove(left, room);
        used := used + left[room];
        left := left - {room};
      }
    }

    method ReserveAndLaunch(room: Room, mode: Mode) returns (outcome: Outcome)
      modifies this`activeSessions, this`reservations, this`tasks
      ensures (Store(), outcome) == Reserve(old(Store()), room, mode)
    {
      if room in reservations {
        return AlreadyReserved;
      }
      var used := UsedUnits();
      if used + limits.Units(mode) > limits.max {
        return Rejected;
      }
      reservations := reservations[room := limits.Units(mode)];
      var task := |tasks|;
      tasks := tasks + [Task(room, Scheduled, false)];
      activeSessions := activeSessions[room := task];
      return Launched(task);
    }

    /** A start up to its wait for the old task, or to its end when there is none. */
    method StartSession(room: Room, mode: Mode) returns (outcome: Outcome)
      requires lock.None? && Inv(Store())
      modifies this
      ensures (Store(), outcome) == Begin(old(Store()), room, mode)
      ensures Inv(Store()) && !outcome.AlreadyReserved?
    {
      BeginKeepsInv(Store(), room, mode);
      if room in activeSessions {
        var replaced := activeSessions[room];
        activeSessions := activeSessions - {room};
        reservations := reservations - {room};
        tasks := tasks[replaced := tasks[replaced].(cancelled := true)];
        lock := Some(Starter(room, mode, replaced));
        return Waiting;
      }
      outcome := ReserveAndLaunch(room, mode);
    }

    /** The rest of a start that waited. */
    method ResumeStart() returns (outcome: Outcome)
      requires lock.Some? && Inv(Store())
      modifies this
      ensures (Store(), outcome) == Resume(old(Store()))
      ensures Inv(Store()) && !outcome.AlreadyReserved?
    {
      UnlockKeepsInv(Store());
      ReserveKeepsInv(Store().(lock := None), lock.value.room, lock.value.mode);
      var starter := lock.value;
      lock := None;
      outcome := ReserveAndLaunch(starter.room, starter.mode);
    }

    /** A task ends; the wrapper's cleanup looks whether it is still the room's session. */
    method EndTask(t: TaskId)
      requires Inv(Store()) && t < |tasks|
      requires tasks[t].stage == Running || (tasks[t].stage == Scheduled && tasks[t].cancelled)
      modifies this`activeSessions, this`reservations, this`tasks
      ensures Store() == End(old(Store()), t) && Inv(Store())
    {
      EndKeepsInv(Store(), t);
      var task := tasks[t];
      tasks := tasks[t := task.(stage := Ended)];
      if task.stage == Running {
        if task.room in activeSessions && activeSessions[task.room] == t {
          activeSessions := activeSessions - {task.room};
          reservations := reservations - {task.room};
        }
      }
    }
  }
}
