/** Admission of simulation pulses over two Redis keys that expire: one per event, against
    duplicates, and one lock for the active pulse. Every Redis command may fail before or
    after it took effect; a caller reconnects once. */
module PulseAdmission {
  import opened Options

  type EventId = string
  type Token = nat
  type Seconds = x: int | 1 <= x witness 1

  datatype Ttls = Ttls(event: Seconds, active: Seconds)
  datatype Lock = Lock(token: Token, expires: int)

  /** What happens to a command: it works; it is lost before or after taking effect; or
      the client repeats it after a lost reply and sees its own first try. */
  datatype Fault = Fine | Dropped | Unanswered | Repeated
  datatype Reply = Set | Refused | Exception

  predicate Live(key: Option<Lock>, now: int) {
    key.Some? && now < key.value.expires
  }

  /** SET with NX and EX. */
  function SetNx(key: Option<Lock>, now: int, token: Token, ttl: Seconds, fault: Fault): (Option<Lock>, Reply) {
    var applied := !Live(key, now) && fault != Dropped;
    (if applied then Some(Lock(token, now + ttl)) else key,
     match fault
     case Fine => if applied then Set else Refused
     case Repeated => Refused
     case _ => Exception)
  }

  datatype Reason = DuplicateEvent | ActivePulse | Unavailable

  /** Where a caller is in its two attempts, or an admitted one in its release; `setAt`:
      when its event key was set, `expires`: when the lock it read as its own will expire. */
  datatype Phase =
    | AtEvent(attempt: nat)
    | AtActive(attempt: nat, setAt: int)
    | Admitted
    | Deleting(expires: int)
    | Finished
    | Skipped(reason: Reason)

  datatype Caller = Caller(event: Option<EventId>, phase: Phase)
  datatype Admission = Admission(token: Token, event: Option<EventId>, setAt: int, at: int)

  /** A live lock, `victim`'s until `until`, deleted at `at` by another pulse, that had read
      the lock as its own until `expires`. */
  datatype Displacement = Displacement(victim: Token, until: int, deleter: Token, expires: int, at: int)

  /** `released`: who deleted its own lock; `displacements`: the others, oldest first. */
  datatype State = State(
    ttls: Ttls,
    now: int,
    events: map<EventId, Lock>,
    active: Option<Lock>,
    callers: map<Token, Caller>,
    admissions: seq<Admission>,
    released: set<Token>,
    displacements: seq<Displacement>)

  function EventKey(s: State, e: EventId): Option<Lock> {
    if e in s.events then Some(s.events[e]) else None
  }

  function First(event: Option<EventId>, attempt: nat, now: int): Phase {
    if event.Some? then AtEvent(attempt) else AtActive(attempt, now)
  }

  function Enter(s: State, token: Token, phase: Phase): State
    requires token in s.callers
  {
    s.(callers := s.callers[token := s.callers[token].(phase := phase)])
  }

  /** An exception: one reconnect, which starts over, or none. */
  function Failed(s: State, token: Token, attempt: nat, reconnects: bool): State
    requires token in s.callers
  {
    Enter(s, token, if attempt == 0 && reconnects then First(s.callers[token].event, 1, s.now)
          else Skipped(Unavailable))
  }

  /** The next command of a caller. */
  function Command(s: State, token: Token, fault: Fault, reconnects: bool): State
    requires token in s.callers
  {
    var caller := s.callers[token];
    match caller.phase
    case AtEvent(attempt) =>
      if caller.event.None? then s else
      var e := caller.event.value;
      var (key, reply) := SetNx(EventKey(s, e), s.now, token, s.ttls.event, fault);
      var s' := if key.Some? then s.(events := s.events[e := key.value]) else s;
      (match reply
       case Set => Enter(s', token, AtActive(attempt, s.now))
       case Refused => Enter(s', token, Skipped(DuplicateEvent))
       case Exception => Failed(s', token, attempt, reconnects))
    case AtActive(attempt, setAt) =>
      var (key, reply) := SetNx(s.active, s.now, token, s.ttls.active, fault);
      var s' := s.(active := key);
      (match reply
       case Set => Enter(s'.(admissions := s.admissions + [Admission(token, caller.event, setAt, s.now)]), token,
                         Admitted)
       case Refused => Enter(s', token, Skipped(ActivePulse))
       case Exception => Failed(s', token, attempt, reconnects))
    case _ => s
  }

  /** The first command of a release: an admitted pulse reads the lock and goes on if it
      is its own. A command that fails ends the release. */
  function ReadLock(s: State, token: Token, fails: bool): State
    requires token in s.callers && s.callers[token].phase.Admitted?
  {
    Enter(s, token, if !fails && Live(s.active, s.now) && s.active.value.token == token
                    then Deleting(s.active.value.expires) else Finished)
  }

  /** The second one: it deletes the lock, whosever it is by now. */
  function DeleteLock(s: State, token: Token, fails: bool): State
    requires token in s.callers && s.callers[token].phase.Deleting?
  {
    var s' := Enter(s, token, Finished);
    if fails then s'
    else if !Live(s.active, s.now) then s'.(active := None)
    else if s.active.value.token == token then s'.(active := None, released := s.released + {token})
    else
      var Lock(victim, until) := s.active.value;
      s'.(active := None,
          displacements := s.displacements
                           + [Displacement(victim, until, token, s.callers[token].phase.expires, s.now)])
  }

  datatype Step =
    | Arrive(token: Token, event: Option<EventId>)
    | Issue(token: Token, fault: Fault, reconnects: bool)
    | Read(token: Token, fails: bool)
    | Delete(token: Token, fails: bool)
    | Wait(seconds: Seconds)

  /** One step of anybody. Tokens are fresh, and only an admitted pulse releases. */
  function Next(s: State, step: Step): State {
    match step
    case Arrive(token, event) =>
      if token in s.callers then s else s.(callers := s.callers[token := Caller(event, First(event, 0, s.now))])
    case Issue(token, fault, reconnects) => if token in s.callers then Command(s, token, fault, reconnects) else s
    case Read(token, fails) =>
      if token in s.callers && s.callers[token].phase.Admitted? then ReadLock(s, token, fails) else s
    case Delete(token, fails) =>
      if token in s.callers && s.callers[token].phase.Deleting? then DeleteLock(s, token, fails) else s
    case Wait(seconds) => s.(now := s.now + seconds)
  }

  function Run(s: State, steps: seq<Step>): State {
    if steps == [] then s else Next(Run(s, steps[..|steps| - 1]), steps[|steps| - 1])
  }

  function Initial(ttls: Ttls, now: int): State {
    State(ttls, now, map[], None, map[], [], {}, [])
  }

  // --------------------------------------------------------------- invariant

  /** The key of event `e`, set by `token` at `setAt`, is still there unless it expired. */
  predicate Guarded(s: State, e: EventId, token: Token, setAt: int) {
    setAt <= s.now && (s.now < setAt + s.ttls.event ==> EventKey(s, e) == Some(Lock(token, setAt + s.ttls.event)))
  }

  predicate Apart(a: int, b: int, ttl: Seconds) {
    a + ttl <= b || b + ttl <= a
  }

  /** The lock of `token` until `until` was deleted by somebody else. */
  predicate Displaced(displacements: seq<Displacement>, token: Token, until: int) {
    exists d <- displacements :: d.victim == token && d.until == until
  }

  /** A displacement took a live lock away from another pulse, with a delete that came when
      the deleter's own lock had expired, or had been taken away in the same manner before. */
  predicate DisplacementOk(displacements: seq<Displacement>, i: nat)
    requires i < |displacements|
  {
    var d := displacements[i];
    && d.deleter != d.victim && d.at < d.until
    && (d.expires <= d.at || Displaced(displacements[..i], d.deleter, d.expires))
  }

  predicate CallerOk(s: State, token: Token)
    requires token in s.callers
  {
    var caller := s.callers[token];
    match caller.phase
    case AtEvent(_) => caller.event.Some?
    case AtActive(_, setAt) =>
      && setAt <= s.now
      && (caller.event.Some? ==> Guarded(s, caller.event.value, token, setAt))
      && forall a <- s.admissions ::
           && a.token != token
           && (a.event == caller.event && caller.event.Some? ==> Apart(a.setAt, setAt, s.ttls.event))
    case Deleting(expires) =>
      s.now < expires ==> Displaced(s.displacements, token, expires) || s.active == Some(Lock(token, expires))
    case _ => true
  }

  /** A caller that was admitted. */
  predicate Past(phase: Phase) {
    phase.Admitted? || phase.Deleting? || phase.Finished?
  }

  /** Callers that hold the key of the same event set it a TTL apart. */
  predicate CallersApart(s: State) {
    forall t, u | t in s.callers && u in s.callers && t != u ::
      && s.callers[t].phase.AtActive? && s.callers[u].phase.AtActive?
      && s.callers[t].event == s.callers[u].event && s.callers[t].event.Some? ==>
        Apart(s.callers[t].phase.setAt, s.callers[u].phase.setAt, s.ttls.event)
  }

  predicate AdmissionOk(s: State, a: Admission) {
    && a.setAt <= a.at <= s.now
    && a.token in s.callers && s.callers[a.token].event == a.event && Past(s.callers[a.token].phase)
    && (a.event.Some? ==> Guarded(s, a.event.value, a.token, a.setAt))
    && (|| a.token in s.released || a.at + s.ttls.active <= s.now
        || Displaced(s.displacements, a.token, a.at + s.ttls.active)
        || s.active == Some(Lock(a.token, a.at + s.ttls.active)))
  }

  predicate AdmissionsApart(s: State) {
    forall i, j :: 0 <= i < j < |s.admissions| ==>
      && s.admissions[i].token != s.admissions[j].token && s.admissions[i].at <= s.admissions[j].at
      && (s.admissions[i].event == s.admissions[j].event && s.admissions[i].event.Some? ==>
            Apart(s.admissions[i].setAt, s.admissions[j].setAt, s.ttls.event))
  }

  ghost predicate Inv(s: State) {
    && (forall token <- s.callers :: CallerOk(s, token))
    && (forall a <- s.admissions :: AdmissionOk(s, a))
    && CallersApart(s) && AdmissionsApart(s)
    && (forall i :: 0 <= i < |s.displacements| ==> DisplacementOk(s.displacements, i))
  }

  /** A key that is not live can be set without breaking anybody's guard. */
  lemma EventSetKeepsInv(s: State, e: EventId, lock: Lock)
    requires Inv(s) && !Live(EventKey(s, e), s.now)
    ensures Inv(s.(events := s.events[e := lock]))
  {
    var s' := s.(events := s.events[e := lock]);
    forall token <- s'.callers ensures CallerOk(s', token) {
      assert CallerOk(s, token);
    }
    forall a <- s'.admissions ensures AdmissionOk(s', a) {
      assert AdmissionOk(s, a);
    }
  }

  lemma ActiveSetKeepsInv(s: State, lock: Lock)
    requires Inv(s) && !Live(s.active, s.now)
    ensures Inv(s.(active := Some(lock)))
  {
    var s' := s.(active := Some(lock));
    forall token <- s'.callers ensures CallerOk(s', token) {
      assert CallerOk(s, token);
    }
    forall a <- s'.admissions ensures AdmissionOk(s', a) {
      assert AdmissionOk(s, a);
    }
  }

  /** A caller that is not admitted goes on without holding a key of its event. */
  lemma EnterKeepsInv(s: State, token: Token, phase: Phase)
    requires Inv(s) && token in s.callers && !Past(s.callers[token].phase)
    requires phase.Skipped? || (phase.AtEvent? && s.callers[token].event.Some?)
          || (phase.AtActive? && s.callers[token].event.None? && phase.setAt <= s.now)
    ensures Inv(Enter(s, token, phase))
  {
    var s' := Enter(s, token, phase);
    forall a <- s'.admissions ensures AdmissionOk(s', a) && a.token != token {
      assert AdmissionOk(s, a);
    }
    forall other <- s'.callers ensures CallerOk(s', other) {
      assert CallerOk(s, other);
    }
  }

  /** A caller goes on with the key of its event set just now. */
  lemma GuardedKeepsInv(s: State, token: Token, e: EventId, attempt: nat)
    requires Inv(s) && token in s.callers && s.callers[token].phase.AtEvent? && s.callers[token].event == Some(e)
    requires !Live(EventKey(s, e), s.now)
    ensures Inv(Enter(s.(events := s.events[e := Lock(token, s.now + s.ttls.event)]), token, AtActive(attempt, s.now)))
  {
    var s1 := s.(events := s.events[e := Lock(token, s.now + s.ttls.event)]);
    EventSetKeepsInv(s, e, Lock(token, s.now + s.ttls.event));
    var s' := Enter(s1, token, AtActive(attempt, s.now));
    forall a <- s'.admissions ensures AdmissionOk(s', a) && a.token != token {
      assert AdmissionOk(s, a) && AdmissionOk(s1, a);
    }
    forall other <- s'.callers ensures CallerOk(s', other) {
      assert CallerOk(s1, other);
      SetNowIsApart(s, token, e, other);
    }
    forall other <- s.callers {
      SetNowIsApart(s, token, e, other);
    }
  }

  /** Whoever set the key of the event before did so a TTL ago. */
  lemma SetNowIsApart(s: State, token: Token, e: EventId, other: Token)
    requires Inv(s) && other in s.callers && !Live(EventKey(s, e), s.now)
    ensures s.callers[other].phase.AtActive? && s.callers[other].event == Some(e) ==>
              Apart(s.callers[other].phase.setAt, s.now, s.ttls.event)
    ensures forall a <- s.admissions :: a.event == Some(e) ==> Apart(a.setAt, s.now, s.ttls.event)
  {
    assert CallerOk(s, other);
    forall a <- s.admissions ensures a.event == Some(e) ==> Apart(a.setAt, s.now, s.ttls.event) {
      assert AdmissionOk(s, a);
    }
  }

  lemma NewestApart(s: State, a: Admission, s': State)
    requires s'.admissions == s.admissions + [a] && s'.ttls == s.ttls
    requires AdmissionsApart(s) && forall o <- s.admissions ::
               && o.token != a.token && o.at <= a.at
               && (o.event == a.event && a.event.Some? ==> Apart(o.setAt, a.setAt, s.ttls.event))
    ensures AdmissionsApart(s')
  {
  }

  /** The caller whose lock was set just now is admitted. */
  lemma AdmitKeepsInv(s: State, token: Token)
    requires Inv(s) && token in s.callers && s.callers[token].phase.AtActive?
    requires s.active == Some(Lock(token, s.now + s.ttls.active))
    ensures var caller := s.callers[token];
      Inv(Enter(s.(admissions := s.admissions + [Admission(token, caller.event, caller.phase.setAt, s.now)]), token,
                Admitted))
  {
    var caller := s.callers[token];
    var a := Admission(token, caller.event, caller.phase.setAt, s.now);
    var s' := Enter(s.(admissions := s.admissions + [a]), token, Admitted);
    assert CallerOk(s, token);
    forall o <- s'.admissions ensures AdmissionOk(s', o) && o.at <= s.now {
      if o in s.admissions {
        assert AdmissionOk(s, o);
      }
    }
    assert AdmissionsApart(s') by {
      hide AdmissionOk, CallerOk;
      NewestApart(s, a, s');
    }
    hide AdmissionsApart, AdmissionOk;
    forall other <- s'.callers ensures CallerOk(s', other) {
      assert CallerOk(s, other);
    }
  }

  lemma CommandKeepsInv(s: State, token: Token, fault: Fault, reconnects: bool)
    requires Inv(s) && token in s.callers
    ensures Inv(Command(s, token, fault, reconnects))
  {
    hide Inv, Guarded, CallersApart, AdmissionsApart, AdmissionOk;
    InvCaller(s, token);
    var caller := s.callers[token];
    var s' := Command(s, token, fault, reconnects);
    match caller.phase
    case AtEvent(attempt) =>
      var e := caller.event.value;
      var lock := Lock(token, s.now + s.ttls.event);
      if Live(EventKey(s, e), s.now) || fault == Dropped {
        EnterKeepsInv(s, token, s'.callers[token].phase);
      } else if fault == Fine {
        GuardedKeepsInv(s, token, e, attempt);
      } else {
        EventSetKeepsInv(s, e, lock);
        EnterKeepsInv(s.(events := s.events[e := lock]), token, s'.callers[token].phase);
      }
      assert EventKey(s, e).Some? ==> s.events[e := s.events[e]] == s.events;
    case AtActive(attempt, setAt) =>
      var s1 := s.(active := SetNx(s.active, s.now, token, s.ttls.active, fault).0);
      if s1.active != s.active {
        ActiveSetKeepsInv(s, s1.active.value);
      }
      if s'.callers[token].phase.Admitted? {
        AdmitKeepsInv(s1, token);
      } else {
        EnterKeepsInv(s1, token, s'.callers[token].phase);
      }
    case _ =>
  }

  lemma InvCaller(s: State, token: Token)
    requires Inv(s) && token in s.callers
    ensures CallerOk(s, token)
  {
  }

  lemma ReadKeepsInv(s: State, token: Token, fails: bool)
    requires Inv(s) && token in s.callers && s.callers[token].phase.Admitted?
    ensures Inv(ReadLock(s, token, fails))
  {
    hide AdmissionsApart;
    var s' := ReadLock(s, token, fails);
    forall other <- s'.callers ensures CallerOk(s', other) {
      assert CallerOk(s, other);
    }
    forall a <- s'.admissions ensures AdmissionOk(s', a) {
      assert AdmissionOk(s, a);
    }
    AdmissionsStay(s, s');
  }

  lemma DeleteKeepsInv(s: State, token: Token, fails: bool)
    requires Inv(s) && token in s.callers && s.callers[token].phase.Deleting?
    ensures Inv(DeleteLock(s, token, fails))
  {
    hide AdmissionsApart, Guarded, DisplacementOk, Displaced;
    var s' := DeleteLock(s, token, fails);
    assert CallerOk(s, token);
    DisplacementsGrow(s, token, fails);
    forall other <- s'.callers ensures CallerOk(s', other) {
      assert CallerOk(s, other);
      SameGuards(s, s');
    }
    forall a <- s'.admissions ensures AdmissionOk(s', a) {
      assert AdmissionOk(s, a);
      SameGuards(s, s');
    }
    AdmissionsStay(s, s');
  }

  /** What a delete adds to the displacements. */
  lemma DisplacementsGrow(s: State, token: Token, fails: bool)
    requires token in s.callers && s.callers[token].phase.Deleting? && CallerOk(s, token)
    requires forall i :: 0 <= i < |s.displacements| ==> DisplacementOk(s.displacements, i)
    ensures var s' := DeleteLock(s, token, fails);
      && (forall i :: 0 <= i < |s'.displacements| ==> DisplacementOk(s'.displacements, i))
      && (forall t, until :: Displaced(s.displacements, t, until) ==> Displaced(s'.displacements, t, until))
      && (Live(s.active, s.now) && s'.active != s.active && s.active.value.token != token ==>
            Displaced(s'.displacements, s.active.value.token, s.active.value.expires))
  {
    var s' := DeleteLock(s, token, fails);
    forall i | 0 <= i < |s'.displacements| ensures DisplacementOk(s'.displacements, i) {
      if i < |s.displacements| {
        assert DisplacementOk(s.displacements, i);
        assert s'.displacements[..i] == s.displacements[..i];
      } else {
        assert s'.displacements[..i] == s.displacements;
      }
    }
  }

  lemma SameGuards(s: State, s': State)
    requires s'.now == s.now && s'.ttls == s.ttls && s'.events == s.events
    ensures forall e, token, setAt :: Guarded(s, e, token, setAt) ==> Guarded(s', e, token, setAt)
  {
  }

  lemma AdmissionsStay(s: State, s': State)
    requires AdmissionsApart(s) && s'.admissions == s.admissions && s'.ttls == s.ttls
    ensures AdmissionsApart(s')
  {
  }

  lemma OthersKeepInv(s: State, step: Step)
    requires Inv(s) && (step.Arrive? || step.Wait?)
    ensures Inv(Next(s, step))
  {
    var s' := Next(s, step);
    forall other <- s'.callers ensures CallerOk(s', other) {
      assert other in s.callers ==> CallerOk(s, other);
      forall a <- s.admissions ensures a.token in s.callers {
        assert AdmissionOk(s, a);
      }
    }
    forall a <- s'.admissions ensures AdmissionOk(s', a) {
      assert AdmissionOk(s, a);
    }
  }

  lemma NextKeepsInv(s: State, step: Step)
    requires Inv(s)
    ensures Inv(Next(s, step))
  {
    hide Inv, Command;
    if step.Issue? {
      if step.token in s.callers {
        CommandKeepsInv(s, step.token, step.fault, step.reconnects);
      }
    } else if step.Read? || step.Delete? {
      if step.token in s.callers && step.Read? && s.callers[step.token].phase.Admitted? {
        ReadKeepsInv(s, step.token, step.fails);
      } else if step.token in s.callers && step.Delete? && s.callers[step.token].phase.Deleting? {
        DeleteKeepsInv(s, step.token, step.fails);
      }
    } else {
      OthersKeepInv(s, step);
    }
  }

  lemma InitialInv(ttls: Ttls, now: int)
    ensures Inv(Initial(ttls, now))
  {
  }

  /** Over every run from empty keys. */
  lemma {:induction false} RunKeepsInv(ttls: Ttls, start: int, steps: seq<Step>)
    ensures Inv(Run(Initial(ttls, start), steps))
  {
    hide Inv, Next, Initial;
    if steps == [] {
      InitialInv(ttls, start);
    } else {
      var earlier := steps[..|steps| - 1];
      RunKeepsInv(ttls, start, earlier);
      NextKeepsInv(Run(Initial(ttls, start), earlier), steps[|steps| - 1]);
    }
  }

  // ---------------------------------------------------------------- theorems

  /** Whatever fails and however callers interleave, an event is admitted at most once per
      dedup TTL: the keys of two admissions of one event were set a TTL apart. So the later
      admission comes a TTL after the earlier one, less what the earlier caller took between
      its two commands, unless the later one took a whole TTL between its own. */
  lemma EventAdmittedOncePerTtl(ttls: Ttls, start: int, steps: seq<Step>, s: State, i: nat, j: nat)
    requires s == Run(Initial(ttls, start), steps) && i < j < |s.admissions|
    requires s.admissions[i].event == s.admissions[j].event && s.admissions[i].event.Some?
    ensures var first, second := s.admissions[i], s.admissions[j];
      && first.token != second.token
      && Apart(first.setAt, second.setAt, s.ttls.event)
      && first.setAt <= first.at <= second.at && second.setAt <= second.at
      && (|| first.at + s.ttls.event - (first.at - first.setAt) <= second.at
          || s.ttls.event <= second.at - second.setAt)
  {
    hide CallerOk, CallersApart;
    RunKeepsInv(ttls, start, steps);
    assert AdmissionOk(s, s.admissions[i]) && AdmissionOk(s, s.admissions[j]);
  }

  /** When a pulse is admitted, every pulse admitted before released the lock, held it for
      its whole TTL, or lost it while it was live to a delete of somebody whose own lock had
      expired by then or had been lost in the same manner before. */
  lemma OnePulseAtATime(ttls: Ttls, start: int, steps: seq<Step>, s: State, step: Step, s': State)
    requires s == Run(Initial(ttls, start), steps) && s' == Next(s, step)
    requires |s'.admissions| > |s.admissions|
    ensures s'.admissions[..|s.admissions|] == s.admissions
    ensures forall a <- s.admissions ::
              || a.token in s.released || a.at + s.ttls.active <= s.now
              || exists i :: 0 <= i < |s.displacements| && DisplacementOk(s.displacements, i)
                             && s.displacements[i].victim == a.token && s.displacements[i].until == a.at + s.ttls.active
  {
    hide CallerOk, CallersApart, AdmissionsApart, DisplacementOk;
    RunKeepsInv(ttls, start, steps);
    assert !Live(s.active, s.now);
    forall a <- s.admissions
      ensures a.token in s.released || a.at + s.ttls.active <= s.now
              || Displaced(s.displacements, a.token, a.at + s.ttls.active)
    {
      assert AdmissionOk(s, a);
    }
  }

  /** The first displacement of a run is by a delete after the deleter's own lock expired. */
  lemma FirstDisplacementIsLate(ttls: Ttls, start: int, steps: seq<Step>, s: State)
    requires s == Run(Initial(ttls, start), steps) && s.displacements != []
    ensures var d := s.displacements[0]; d.deleter != d.victim && d.expires <= d.at < d.until
  {
    hide CallerOk, CallersApart, AdmissionsApart, AdmissionOk;
    RunKeepsInv(ttls, start, steps);
    assert DisplacementOk(s.displacements, 0);
  }

  /** Who has not lost its lock to another deletes, within the TTL, exactly its own. */
  lemma ReleaseInTime(ttls: Ttls, start: int, steps: seq<Step>, s: State, token: Token, s': State)
    requires s == Run(Initial(ttls, start), steps)
    requires token in s.callers && s.callers[token].phase.Deleting? && s.now < s.callers[token].phase.expires
    requires !Displaced(s.displacements, token, s.callers[token].phase.expires)
    requires s' == Next(s, Delete(token, false))
    ensures s.active == Some(Lock(token, s.callers[token].phase.expires))
    ensures s'.active.None? && s'.released == s.released + {token} && s'.displacements == s.displacements
  {
    hide AdmissionOk, CallersApart, AdmissionsApart, Displaced, DisplacementOk;
    RunKeepsInv(ttls, start, steps);
    assert CallerOk(s, token);
  }

  /** A run that goes on. */
  lemma OneMore(s: State, steps: seq<Step>, step: Step)
    ensures Run(s, steps + [step]) == Next(Run(s, steps), step)
  {
    assert (steps + [step])[..|steps|] == steps;
  }

  /** A pulse that read its lock and went to sleep until the lock expired. */
  function Overslept(ttls: Ttls, start: int): State {
    var now := start + ttls.active;
    Initial(ttls, now).(active := Some(Lock(0, now)), callers := map[0 := Caller(None, Deleting(now))],
                        admissions := [Admission(0, None, start, start)])
  }

  lemma Oversleeps(ttls: Ttls, start: int) returns (steps: seq<Step>)
    ensures Run(Initial(ttls, start), steps) == Overslept(ttls, start)
  {
    hide Run;
    var s0 := Initial(ttls, start);
    var s := s0;
    steps := [];
    assert Run(s0, []) == s0 by {
      RunNothing(s0);
    }
    steps, s := Extend(s0, steps, s, Arrive(0, None));
    steps, s := Extend(s0, steps, s, Issue(0, Fine, false));
    steps, s := Extend(s0, steps, s, Read(0, false));
    steps, s := Extend(s0, steps, s, Wait(ttls.active));
  }

  /** Two pulses at once: the first reads its lock, goes on only after the lock has expired,
      and deletes that of the second, so that a third is admitted beside it. */
  lemma LateDeleteAdmitsAnother(ttls: Ttls, start: int) returns (steps: seq<Step>, s: State)
    ensures s == Run(Initial(ttls, start), steps)
    ensures s.admissions == [Admission(0, None, start, start), Admission(1, None, s.now, s.now),
                             Admission(2, None, s.now, s.now)]
    ensures s.displacements == [Displacement(1, s.now + ttls.active, 0, s.now, s.now)]
    ensures s.released == {} && s.active.Some? && s.active.value.token == 2
  {
    hide Run;
    var s0 := Initial(ttls, start);
    steps := Oversleeps(ttls, start);
    s := Overslept(ttls, start);
    steps, s := Extend(s0, steps, s, Arrive(1, None));
    steps, s := Extend(s0, steps, s, Issue(1, Fine, false));
    steps, s := Extend(s0, steps, s, Delete(0, false));
    steps, s := Extend(s0, steps, s, Arrive(2, None));
    steps, s := Extend(s0, steps, s, Issue(2, Fine, false));
  }

  /** The first two pulses of the run below: the first has just deleted the lock of the
      second, which has read it as its own. */
  function OneDisplaced(ttls: Ttls, start: int): State {
    var now := start + ttls.active;
    Initial(ttls, now).(
      displacements := [Displacement(1, now + ttls.active, 0, now, now)],
      callers := map[0 := Caller(None, Finished), 1 := Caller(None, Deleting(now + ttls.active))],
      admissions := [Admission(0, None, start, start), Admission(1, None, now, now)])
  }

  lemma DisplacesOne(ttls: Ttls, start: int) returns (steps: seq<Step>)
    ensures Run(Initial(ttls, start), steps) == OneDisplaced(ttls, start)
  {
    hide Run;
    var s0 := Initial(ttls, start);
    steps := Oversleeps(ttls, start);
    var s := Overslept(ttls, start);
    steps, s := Extend(s0, steps, s, Arrive(1, None));
    steps, s := Extend(s0, steps, s, Issue(1, Fine, false));
    steps, s := Extend(s0, steps, s, Read(1, false));
    steps, s := Extend(s0, steps, s, Delete(0, false));
  }

  /** The second kind of displacement happens too: the displaced pulse goes on and deletes,
      within its own TTL, the lock of the third, under which a fourth is admitted. */
  lemma DisplacedDeletesInTurn(ttls: Ttls, start: int) returns (steps: seq<Step>, s: State)
    ensures s == Run(Initial(ttls, start), steps)
    ensures s.displacements == [Displacement(1, s.now + ttls.active, 0, s.now, s.now),
                                Displacement(2, s.now + ttls.active, 1, s.now + ttls.active, s.now)]
    ensures s.released == {} && s.active == Some(Lock(3, s.now + ttls.active))
    ensures s.callers == map[0 := Caller(None, Finished), 1 := Caller(None, Finished),
                             2 := Caller(None, Admitted), 3 := Caller(None, Admitted)]
  {
    hide Run;
    var s0 := Initial(ttls, start);
    steps := DisplacesOne(ttls, start);
    s := OneDisplaced(ttls, start);
    steps, s := Extend(s0, steps, s, Arrive(2, None));
    steps, s := Extend(s0, steps, s, Issue(2, Fine, false));
    steps, s := Extend(s0, steps, s, Delete(1, false));
    steps, s := Extend(s0, steps, s, Arrive(3, None));
    steps, s := Extend(s0, steps, s, Issue(3, Fine, false));
  }

  /** The other case of `EventAdmittedOncePerTtl`: one event is admitted twice at the same
      time, after a caller that took a whole TTL between its two commands. */
  lemma SlowCallerAdmitsTwice(ttls: Ttls, start: int, e: EventId) returns (steps: seq<Step>, s: State)
    ensures s == Run(Initial(ttls, start), steps)
    ensures s.now == start + ttls.event
    ensures s.admissions == [Admission(1, Some(e), s.now, s.now), Admission(0, Some(e), start, s.now)]
  {
    hide Run;
    var s0 := Initial(ttls, start);
    steps, s := [], s0;
    assert Run(s0, []) == s0 by {
      RunNothing(s0);
    }
    steps, s := Extend(s0, steps, s, Arrive(0, Some(e)));
    steps, s := Extend(s0, steps, s, Issue(0, Fine, false));
    steps, s := Extend(s0, steps, s, Wait(ttls.event));
    steps, s := Extend(s0, steps, s, Arrive(1, Some(e)));
    steps, s := Extend(s0, steps, s, Issue(1, Fine, false));
    steps, s := Extend(s0, steps, s, Issue(1, Fine, false));
    steps, s := Extend(s0, steps, s, Read(1, false));
    steps, s := Extend(s0, steps, s, Delete(1, false));
    steps, s := Extend(s0, steps, s, Issue(0, Fine, false));
  }

  lemma RunNothing(s: State)
    ensures Run(s, []) == s
  {
  }

  lemma Extend(s0: State, steps: seq<Step>, s: State, step: Step) returns (steps': seq<Step>, s': State)
    requires s == Run(s0, steps)
    ensures steps' == steps + [step] && s' == Run(s0, steps') && s' == Next(s, step)
  {
    OneMore(s0, steps, step);
    steps', s' := steps + [step], Next(s, step);
  }

  predicate Holding(s: State, e: EventId, token: Token) {
    token in s.callers && s.callers[token].event == Some(e) && s.callers[token].phase.AtActive?
  }

  predicate For(a: Admission, e: EventId) {
    a.event == Some(e)
  }

  lemma OrphanStep(s: State, e: EventId, step: Step)
    requires Live(EventKey(s, e), Next(s, step).now) && forall t <- s.callers :: !Holding(s, e, t)
    ensures var s' := Next(s, step);
      && EventKey(s', e) == EventKey(s, e) && (forall t <- s'.callers :: !Holding(s', e, t))
      && s.admissions <= s'.admissions
      && (forall k :: |s.admissions| <= k < |s'.admissions| ==> !For(s'.admissions[k], e))
  {
  }

  lemma {:induction false} TimeMovesOn(s: State, steps: seq<Step>)
    ensures s.now <= Run(s, steps).now
  {
    hide Next;
    if steps != [] {
      TimeMovesOn(s, steps[..|steps| - 1]);
      NextTime(Run(s, steps[..|steps| - 1]), steps[|steps| - 1]);
    }
  }

  /** An event whose key is set while no caller is on its way with it is lost for the rest
      of the TTL: nobody is admitted for it, not even the caller that set the key and tries
      again after a lost reply, since its own key now refuses it. */
  lemma {:induction false} OrphanedEventIsLost(s: State, e: EventId, steps: seq<Step>)
    requires Live(EventKey(s, e), Run(s, steps).now) && forall t <- s.callers :: !Holding(s, e, t)
    ensures var s' := Run(s, steps);
      && EventKey(s', e) == EventKey(s, e) && (forall t <- s'.callers :: !Holding(s', e, t))
      && s.admissions <= s'.admissions
      && (forall k :: |s.admissions| <= k < |s'.admissions| ==> !For(s'.admissions[k], e))
  {
    hide Next, Holding, For;
    if steps != [] {
      var n := |steps| - 1;
      var before := Run(s, steps[..n]);
      NextTime(before, steps[n]);
      OrphanedEventIsLost(s, e, steps[..n]);
      OrphanStep(before, e, steps[n]);
    }
  }

  lemma NextTime(s: State, step: Step)
    ensures s.now <= Next(s, step).now
  {
  }

  /** How a caller orphans its own event: the key was set, the reply lost. Nobody is then
      admitted for the event until the key expires. */
  lemma LostReplyOrphans(s: State, token: Token, e: EventId, fault: Fault, reconnects: bool, steps: seq<Step>,
                         s': State)
    requires token in s.callers && s.callers[token] == Caller(Some(e), AtEvent(0))
    requires !Live(EventKey(s, e), s.now) && (fault == Unanswered || fault == Repeated)
    requires forall t <- s.callers :: !Holding(s, e, t)
    requires s' == Run(Command(s, token, fault, reconnects), steps) && s'.now < s.now + s.ttls.event
    ensures s.admissions <= s'.admissions
    ensures forall k :: |s.admissions| <= k < |s'.admissions| ==> !For(s'.admissions[k], e)
  {
    hide Run, For;
    var s1 := Command(s, token, fault, reconnects);
    assert EventKey(s1, e) == Some(Lock(token, s.now + s.ttls.event));
    OrphanedEventIsLost(s1, e, steps);
  }

  /** A refusal by the active lock burns the event: its key stays set, nobody holds it, and
      it is admitted by nobody for the rest of the TTL although no pulse ran for it. */
  lemma BusyLockBurnsEvent(s: State, token: Token, e: EventId, reconnects: bool, steps: seq<Step>, s': State)
    requires Inv(s) && Holding(s, e, token) && Live(s.active, s.now)
    requires forall t <- s.callers :: t != token ==> !Holding(s, e, t)
    requires s' == Run(Command(s, token, Fine, reconnects), steps)
    requires s'.now < s.callers[token].phase.setAt + s.ttls.event
    ensures Command(s, token, Fine, reconnects).callers[token].phase == Skipped(ActivePulse)
    ensures s.admissions <= s'.admissions
    ensures forall k :: |s.admissions| <= k < |s'.admissions| ==> !For(s'.admissions[k], e)
  {
    hide Run, For, AdmissionOk, CallersApart, AdmissionsApart;
    var s1 := Command(s, token, Fine, reconnects);
    assert CallerOk(s, token);
    TimeMovesOn(s1, steps);
    OrphanedEventIsLost(s1, e, steps);
  }

  /** The active lock is live, but no pulse runs under it and nobody is about to delete it. */
  predicate OrphanedLock(s: State) {
    && s.active.Some?
    && s.active.value.token in s.callers && !s.callers[s.active.value.token].phase.Admitted?
    && forall t <- s.callers :: !s.callers[t].phase.Deleting?
  }

  lemma OrphanedLockCommand(s: State, token: Token, fault: Fault, reconnects: bool)
    requires OrphanedLock(s) && Live(s.active, s.now) && token in s.callers
    ensures var s' := Command(s, token, fault, reconnects);
      OrphanedLock(s') && s'.active == s.active && s'.admissions == s.admissions && s'.now == s.now
  {
  }

  lemma OrphanedLockStep(s: State, step: Step)
    requires OrphanedLock(s) && Live(s.active, Next(s, step).now)
    ensures var s' := Next(s, step);
      OrphanedLock(s') && s'.active == s.active && s'.admissions == s.admissions
  {
    NextTime(s, step);
    LiveBefore(s.active, s.now, Next(s, step).now);
    hide Command;
    if step.Issue? && step.token in s.callers {
      OrphanedLockCommand(s, step.token, step.fault, step.reconnects);
    }
  }

  /** Under an orphaned lock every pulse is refused, whatever anybody does, until it expires. */
  lemma {:induction false} OrphanedLockRefusesAll(s: State, steps: seq<Step>, s': State)
    requires OrphanedLock(s) && s' == Run(s, steps) && Live(s.active, s'.now)
    ensures OrphanedLock(s') && s'.active == s.active && s'.admissions == s.admissions
  {
    hide Next, OrphanedLock;
    if steps != [] {
      var n := |steps| - 1;
      var before := Run(s, steps[..n]);
      NextTime(before, steps[n]);
      LiveBefore(s.active, before.now, s'.now);
      OrphanedLockRefusesAll(s, steps[..n], before);
      OrphanedLockStep(before, steps[n]);
    }
  }

  lemma LiveBefore(key: Option<Lock>, now: int, later: int)
    requires Live(key, later) && now <= later
    ensures Live(key, now)
  {
  }

  /** How that comes about: the lock was set, the reply lost. No pulse at all is admitted
      until it expires. */
  lemma LostReplyOrphansLock(s: State, token: Token, fault: Fault, reconnects: bool, steps: seq<Step>, s': State)
    requires token in s.callers && s.callers[token].phase.AtActive? && !Live(s.active, s.now)
    requires fault == Unanswered || fault == Repeated
    requires forall t <- s.callers :: !s.callers[t].phase.Deleting?
    requires s' == Run(Command(s, token, fault, reconnects), steps) && s'.now < s.now + s.ttls.active
    ensures s'.active == Some(Lock(token, s.now + s.ttls.active)) && s'.admissions == s.admissions
  {
    hide Run;
    var s1 := Command(s, token, fault, reconnects);
    assert s1.active == Some(Lock(token, s.now + s.ttls.active)) && s1.admissions == s.admissions;
    OrphanedLockRefusesAll(s1, steps, s');
  }

  // ------------------------------------------------- what one step leaves alone

  /** A key that is live after a step was not touched by it, but by a delete: SET NX writes
      only where nothing is live, the writer's own token with the whole TTL. */
  lemma LiveKeysStay(s: State, step: Step, s': State)
    requires Inv(s) && s' == Next(s, step)
    ensures forall e :: Live(EventKey(s, e), s'.now) ==> EventKey(s', e) == EventKey(s, e)
    ensures forall e :: EventKey(s', e) != EventKey(s, e) ==>
              && step.Issue? && step.token in s.callers && s.callers[step.token].event == Some(e)
              && s.callers[step.token].phase.AtEvent?
              && EventKey(s', e) == Some(Lock(step.token, s.now + s.ttls.event))
    ensures Live(s.active, s'.now) && !step.Delete? ==> s'.active == s.active
    ensures s'.active != s.active && !step.Delete? ==>
              && step.Issue? && step.token in s.callers && s.callers[step.token].phase.AtActive?
              && s'.active == Some(Lock(step.token, s.now + s.ttls.active))
  {
    hide CallerOk, AdmissionOk, CallersApart, AdmissionsApart, DisplacementOk;
  }

  /** Nobody else's caller moves. */
  lemma OthersStay(s: State, step: Step, s': State)
    requires s' == Next(s, step)
    ensures s'.ttls == s.ttls && s.callers.Keys <= s'.callers.Keys
    ensures forall t <- s.callers :: (step.Wait? || step.token != t) ==> s'.callers[t] == s.callers[t]
    ensures !step.Delete? ==> s'.released == s.released && s'.displacements == s.displacements
  {
    hide Live;
  }

  /** A pulse is admitted only by setting the lock itself where none is live. */
  lemma AdmittedByLock(s: State, step: Step, s': State)
    requires s' == Next(s, step) && s'.admissions != s.admissions
    ensures step.Issue? && step.token in s.callers && s.callers[step.token].phase.AtActive?
    ensures var caller := s.callers[step.token];
      s'.admissions == s.admissions + [Admission(step.token, caller.event, caller.phase.setAt, s.now)]
    ensures !Live(s.active, s.now) && s'.active == Some(Lock(step.token, s.now + s.ttls.active))
  {
  }

  /** A release with nothing in between: a live lock that is the pulse's own goes, if neither
      command fails; any other lock, another's above all, stays as it is. */
  lemma ReleaseFrees(s: State, token: Token, readFails: bool, deleteFails: bool, s': State)
    requires token in s.callers && s.callers[token].phase.Admitted?
    requires s' == Next(Next(s, Read(token, readFails)), Delete(token, deleteFails))
    ensures var frees := !readFails && !deleteFails && Live(s.active, s.now) && s.active.value.token == token;
      && s'.active == (if frees then None else s.active)
      && s'.released == s.released + (if frees then {token} else {})
    ensures s'.callers == s.callers[token := s.callers[token].(phase := Finished)]
    ensures s'.displacements == s.displacements
    ensures s'.events == s.events && s'.admissions == s.admissions && s'.now == s.now
  {
  }

  // ------------------------------------------------------ one caller by itself

  predicate Over(s: State, token: Token)
    requires token in s.callers
  {
    s.callers[token].phase.Admitted? || s.callers[token].phase.Skipped?
  }

  /** A caller's commands one after the other, each with its fault. */
  function Commands(s: State, token: Token, faults: seq<Fault>, k: nat, reconnects: bool): State
    requires token in s.callers && k <= |faults|
    decreases |faults| - k
  {
    if k == |faults| || Over(s, token) then s
    else Commands(Command(s, token, faults[k], reconnects), token, faults, k + 1, reconnects)
  }

  /** Exactly when a pulse by itself is admitted: neither key is live, and its commands
      work at once, or the very first one had no effect and everything after a reconnect
      works. Any other failure skips the pulse. */
  predicate Admissible(eventLive: bool, activeLive: bool, hasEvent: bool, faults: seq<Fault>, reconnects: bool)
    requires |faults| == 4
  {
    && !activeLive && (hasEvent ==> !eventLive)
    && (if hasEvent
        then (faults[0] == Fine && faults[1] == Fine)
          || (faults[0] == Dropped && reconnects && faults[1] == Fine && faults[2] == Fine)
        else faults[0] == Fine || (faults[0] == Dropped && reconnects && faults[1] == Fine))
  }

  /** The client gets an answer. */
  predicate Answered(f: Fault) { f == Fine || f == Repeated }

  /** When the event's key refuses a pulse: it is live, or the pulse set it itself and the
      client repeated the command, or tries again after it. */
  predicate Duplicate(eventLive: bool, hasEvent: bool, faults: seq<Fault>, reconnects: bool)
    requires |faults| == 4
  {
    && hasEvent
    && (|| (Answered(faults[0]) && (eventLive || faults[0] == Repeated))
        || (!Answered(faults[0]) && reconnects && Answered(faults[1])
            && (eventLive || faults[0] == Unanswered || faults[1] == Repeated))
        || (faults[0] == Fine && !eventLive && !Answered(faults[1]) && reconnects && Answered(faults[2])))
  }

  /** When the active lock does, likewise. */
  predicate Busy(eventLive: bool, activeLive: bool, hasEvent: bool, faults: seq<Fault>, reconnects: bool)
    requires |faults| == 4
  {
    if hasEvent then
      && !eventLive
      && (|| (faults[0] == Fine && Answered(faults[1]) && (activeLive || faults[1] == Repeated))
          || (faults[0] == Dropped && reconnects && faults[1] == Fine
              && Answered(faults[2]) && (activeLive || faults[2] == Repeated)))
    else
      || (Answered(faults[0]) && (activeLive || faults[0] == Repeated))
      || (!Answered(faults[0]) && reconnects && Answered(faults[1])
          && (activeLive || faults[0] == Unanswered || faults[1] == Repeated))
  }

  /** Only what was not live has changed, and holds the pulse's own token now. */
  ghost predicate OwnKeysOnly(s: State, token: Token, event: Option<EventId>, s': State) {
    && (forall e :: EventKey(s', e) != EventKey(s, e) ==>
          && event == Some(e) && !Live(EventKey(s, e), s.now)
          && EventKey(s', e) == Some(Lock(token, s.now + s.ttls.event)))
    && (s'.active != s.active ==>
          !Live(s.active, s.now) && s'.active == Some(Lock(token, s.now + s.ttls.active)))
  }

  lemma OwnKeysFurther(s: State, token: Token, event: Option<EventId>, t: State, u: State)
    requires OwnKeysOnly(s, token, event, t) && OwnKeysOnly(t, token, event, u)
    requires t.now == s.now && t.ttls == s.ttls
    ensures OwnKeysOnly(s, token, event, u)
  {
  }

  lemma CommandKeys(s: State, token: Token, fault: Fault, reconnects: bool)
    requires token in s.callers
    ensures var s' := Command(s, token, fault, reconnects);
      && OwnKeysOnly(s, token, s.callers[token].event, s') && s'.now == s.now && s'.ttls == s.ttls
      && token in s'.callers && s'.callers[token].event == s.callers[token].event
  {
  }

  /** Whatever a pulse by itself is answered, it leaves live keys alone. */
  lemma {:induction false} CommandsKeys(s: State, token: Token, faults: seq<Fault>, k: nat, reconnects: bool)
    requires token in s.callers && k <= |faults|
    ensures OwnKeysOnly(s, token, s.callers[token].event, Commands(s, token, faults, k, reconnects))
    decreases |faults| - k
  {
    hide OwnKeysOnly, Command;
    if k == |faults| || Over(s, token) {
      assert OwnKeysOnly(s, token, s.callers[token].event, s) by {
        NoKeys(s, token, s.callers[token].event);
      }
    } else {
      var s1 := Command(s, token, faults[k], reconnects);
      CommandKeys(s, token, faults[k], reconnects);
      CommandsKeys(s1, token, faults, k + 1, reconnects);
      OwnKeysFurther(s, token, s.callers[token].event, s1, Commands(s1, token, faults, k + 1, reconnects));
    }
  }

  /** A pulse is admitted with its own lock. */
  lemma {:induction false} CommandsAdmit(s: State, token: Token, faults: seq<Fault>, k: nat, reconnects: bool)
    requires token in s.callers && k <= |faults| && !s.callers[token].phase.Admitted?
    ensures var s' := Commands(s, token, faults, k, reconnects);
      token in s'.callers && s'.callers[token].phase.Admitted? ==> s'.active == Some(Lock(token, s.now + s.ttls.active))
    decreases |faults| - k
  {
    if k < |faults| && !Over(s, token) {
      var s1 := Command(s, token, faults[k], reconnects);
      CommandKeys(s, token, faults[k], reconnects);
      CommandsStep(s, token, faults, k, reconnects);
      if !s1.callers[token].phase.Admitted? {
        CommandsAdmit(s1, token, faults, k + 1, reconnects);
      } else {
        CommandsOver(s1, token, faults, k + 1, reconnects);
      }
    }
  }

  lemma NoKeys(s: State, token: Token, event: Option<EventId>)
    ensures OwnKeysOnly(s, token, event, s)
  {
  }

  /** In the second attempt nothing is forgiven. */
  lemma LastAttempt(s: State, token: Token, faults: seq<Fault>, k: nat, reconnects: bool)
    requires token in s.callers && k + 2 <= |faults|
    requires s.callers[token].phase == First(s.callers[token].event, 1, s.now)
    ensures var s' := Commands(s, token, faults, k, reconnects); var event := s.callers[token].event;
      && token in s'.callers && Over(s', token)
      && (s'.callers[token].phase.Admitted? <==>
            if event.Some?
            then && !Live(EventKey(s, event.value), s.now) && !Live(s.active, s.now)
                 && faults[k] == Fine && faults[k + 1] == Fine
            else !Live(s.active, s.now) && faults[k] == Fine)
      && (s'.callers[token].phase == Skipped(DuplicateEvent) <==>
            && event.Some? && Answered(faults[k])
            && (Live(EventKey(s, event.value), s.now) || faults[k] == Repeated))
      && (s'.callers[token].phase == Skipped(ActivePulse) <==>
            if event.Some?
            then && !Live(EventKey(s, event.value), s.now) && faults[k] == Fine
                 && Answered(faults[k + 1]) && (Live(s.active, s.now) || faults[k + 1] == Repeated)
            else Answered(faults[k]) && (Live(s.active, s.now) || faults[k] == Repeated))
  {
    var s1 := Command(s, token, faults[k], reconnects);
    if !Over(s1, token) {
      var s2 := Command(s1, token, faults[k + 1], reconnects);
      assert Commands(s1, token, faults, k + 1, reconnects) == Commands(s2, token, faults, k + 2, reconnects);
    }
  }

  /** A caller with an event whose key is set in the first attempt. */
  lemma AfterEventKey(s: State, token: Token, faults: seq<Fault>, reconnects: bool)
    requires token in s.callers && |faults| == 4 && s.callers[token].event.Some?
    requires s.callers[token].phase.AtActive? && s.callers[token].phase.attempt == 0
    requires Live(EventKey(s, s.callers[token].event.value), s.now)
    ensures var s' := Commands(s, token, faults, 1, reconnects);
      && token in s'.callers && Over(s', token)
      && (s'.callers[token].phase.Admitted? <==> !Live(s.active, s.now) && faults[1] == Fine)
      && (s'.callers[token].phase == Skipped(DuplicateEvent) <==>
            !Answered(faults[1]) && reconnects && Answered(faults[2]))
      && (s'.callers[token].phase == Skipped(ActivePulse) <==>
            Answered(faults[1]) && (Live(s.active, s.now) || faults[1] == Repeated))
  {
    hide Commands;
    var s2 := Command(s, token, faults[1], reconnects);
    CommandsStep(s, token, faults, 1, reconnects);
    CommandsStep(s2, token, faults, 2, reconnects);
    if !Over(s2, token) {
      LastAttempt(s2, token, faults, 2, reconnects);
    }
  }

  /** The first command for an event. */
  lemma FirstEventCommand(s: State, token: Token, e: EventId, fault: Fault, reconnects: bool)
    requires token in s.callers && s.callers[token] == Caller(Some(e), AtEvent(0))
    ensures var s' := Command(s, token, fault, reconnects); var live := Live(EventKey(s, e), s.now);
      && token in s'.callers && s'.callers[token].event == Some(e) && s'.active == s.active && s'.now == s.now
      && s'.callers[token].phase == (
           if Answered(fault) && (live || fault == Repeated) then Skipped(DuplicateEvent)
           else if fault == Fine then AtActive(0, s.now)
           else if reconnects then AtEvent(1) else Skipped(Unavailable))
      && (Live(EventKey(s', e), s'.now) <==> live || fault != Dropped)
  {
  }

  lemma DecisionForEvent(s: State, token: Token, e: EventId, faults: seq<Fault>, reconnects: bool)
    requires token in s.callers && s.callers[token] == Caller(Some(e), AtEvent(0)) && |faults| == 4
    ensures var s' := Commands(s, token, faults, 0, reconnects);
      var eventLive, activeLive := Live(EventKey(s, e), s.now), Live(s.active, s.now);
      && token in s'.callers && Over(s', token)
      && (s'.callers[token].phase.Admitted? <==> Admissible(eventLive, activeLive, true, faults, reconnects))
      && (s'.callers[token].phase == Skipped(DuplicateEvent) <==> Duplicate(eventLive, true, faults, reconnects))
      && (s'.callers[token].phase == Skipped(ActivePulse) <==> Busy(eventLive, activeLive, true, faults, reconnects))
  {
    hide Commands;
    var s1 := Command(s, token, faults[0], reconnects);
    CommandsStep(s, token, faults, 0, reconnects);
    CommandsStep(s1, token, faults, 1, reconnects);
    FirstEventCommand(s, token, e, faults[0], reconnects);
    hide Command, Live, EventKey;
    if s1.callers[token].phase == AtEvent(1) {
      LastAttempt(s1, token, faults, 1, reconnects);
    } else if !Over(s1, token) {
      AfterEventKey(s1, token, faults, reconnects);
    }
  }

  lemma DecisionWithoutEvent(s: State, token: Token, faults: seq<Fault>, reconnects: bool)
    requires token in s.callers && s.callers[token] == Caller(None, AtActive(0, s.now)) && |faults| == 4
    ensures var s' := Commands(s, token, faults, 0, reconnects); var activeLive := Live(s.active, s.now);
      && token in s'.callers && Over(s', token)
      && (s'.callers[token].phase.Admitted? <==> Admissible(false, activeLive, false, faults, reconnects))
      && (s'.callers[token].phase == Skipped(DuplicateEvent) <==> Duplicate(false, false, faults, reconnects))
      && (s'.callers[token].phase == Skipped(ActivePulse) <==> Busy(false, activeLive, false, faults, reconnects))
  {
    hide Commands;
    var s1 := Command(s, token, faults[0], reconnects);
    CommandsStep(s, token, faults, 0, reconnects);
    CommandsStep(s1, token, faults, 1, reconnects);
    if !Over(s1, token) {
      LastAttempt(s1, token, faults, 1, reconnects);
    }
  }

  /** Which answer a pulse by itself gets, and that it leaves every live key alone. */
  lemma AdmissionDecision(s: State, token: Token, event: Option<EventId>, faults: seq<Fault>, reconnects: bool)
    requires token !in s.callers && |faults| == 4
    ensures var s' := Commands(Next(s, Arrive(token, event)), token, faults, 0, reconnects);
      var eventLive, activeLive := event.Some? && Live(EventKey(s, event.value), s.now), Live(s.active, s.now);
      && token in s'.callers && Over(s', token)
      && (s'.callers[token].phase.Admitted? <==> Admissible(eventLive, activeLive, event.Some?, faults, reconnects))
      && (s'.callers[token].phase == Skipped(DuplicateEvent) <==> Duplicate(eventLive, event.Some?, faults, reconnects))
      && (s'.callers[token].phase == Skipped(ActivePulse) <==>
            Busy(eventLive, activeLive, event.Some?, faults, reconnects))
      && OwnKeysOnly(s, token, event, s')
      && (s'.callers[token].phase.Admitted? ==> s'.active == Some(Lock(token, s.now + s.ttls.active)))
  {
    hide Commands, Command, Admissible, Duplicate, Busy;
    var s0 := Next(s, Arrive(token, event));
    CommandsKeys(s0, token, faults, 0, reconnects);
    CommandsAdmit(s0, token, faults, 0, reconnects);
    if event.Some? {
      DecisionForEvent(s0, token, event.value, faults, reconnects);
    } else {
      DecisionWithoutEvent(s0, token, faults, reconnects);
    }
  }

  lemma CommandsStep(s: State, token: Token, faults: seq<Fault>, k: nat, reconnects: bool)
    requires token in s.callers && k < |faults|
    ensures Commands(s, token, faults, k, reconnects)
            == if Over(s, token) then s
               else Commands(Command(s, token, faults[k], reconnects), token, faults, k + 1, reconnects)
  {
  }

  /** The keys with one caller on its way. */
  function At(s: State, events: map<EventId, Lock>, active: Option<Lock>, token: Token, event: Option<EventId>,
              phase: Phase): State {
    s.(events := events, active := active, callers := map[token := Caller(event, phase)])
  }

  lemma EventCommandAt(s: State, events: map<EventId, Lock>, active: Option<Lock>, token: Token, e: EventId,
                       attempt: nat, fault: Fault, reconnects: bool)
    ensures var (key, reply) := SetNx(if e in events then Some(events[e]) else None, s.now, token, s.ttls.event, fault);
      Command(At(s, events, active, token, Some(e), AtEvent(attempt)), token, fault, reconnects)
      == At(s, if key.Some? then events[e := key.value] else events, active, token, Some(e),
            match reply
            case Set => AtActive(attempt, s.now)
            case Refused => Skipped(DuplicateEvent)
            case Exception => if attempt == 0 && reconnects then AtEvent(1) else Skipped(Unavailable))
  {
  }

  lemma ActiveCommandAt(s: State, events: map<EventId, Lock>, active: Option<Lock>, token: Token,
                        event: Option<EventId>, attempt: nat, fault: Fault, reconnects: bool)
    ensures var (key, reply) := SetNx(active, s.now, token, s.ttls.active, fault);
      var s' := Command(At(s, events, active, token, event, AtActive(attempt, s.now)), token, fault, reconnects);
      && s'.events == events && s'.active == key && s'.now == s.now && s'.ttls == s.ttls
      && s'.callers == map[token := Caller(event,
           match reply
           case Set => Admitted
           case Refused => Skipped(ActivePulse)
           case Exception => if attempt == 0 && reconnects then First(event, 1, s.now) else Skipped(Unavailable))]
      && (reply.Exception? ==> s' == At(s, events, key, token, event, s'.callers[token].phase))
  {
  }

  /** The keys as the service sees them. */
  class Redis {
    const ttls: Ttls
    var now: int
    var events: map<EventId, Lock>
    var active: Option<Lock>

    constructor (ttls: Ttls, now: int)
      ensures this.ttls == ttls && this.now == now && events == map[] && active == None
    {
      this.ttls, this.now := ttls, now;
      events, active := map[], None;
    }

    /** The keys, with one caller on its way. */
    function Store(token: Token, caller: Caller): State
      reads this
    {
      State(ttls, now, events, active, map[token := caller], [], {}, [])
    }

    method SetEvent(e: EventId, token: Token, fault: Fault) returns (reply: Reply)
      modifies this`events
      ensures var (key, r) := SetNx(if e in old(events) then Some(old(events)[e]) else None, now, token, ttls.event,
                                    fault);
        reply == r && events == if key.Some? then old(events)[e := key.value] else old(events)
    {
      var (key, r) := SetNx(if e in events then Some(events[e]) else None, now, token, ttls.event, fault);
      if key.Some? {
        events := events[e := key.value];
      }
      return r;
    }

    method SetActive(token: Token, fault: Fault) returns (reply: Reply)
      modifies this`active
      ensures (active, reply) == SetNx(old(active), now, token, ttls.active, fault)
    {
      var (key, r) := SetNx(active, now, token, ttls.active, fault);
      active := key;
      return r;
    }

    /** Which answer a pulse gets, and what it does to the keys: it is that of a caller by
        itself in the interleavings, whose theorems so hold of it. */
    method AdmitPulse(token: Token, event: Option<EventId>, faults: seq<Fault>, reconnects: bool) returns (phase: Phase)
      requires |faults| == 4
      modifies this`events, this`active
      ensures var before := State(ttls, now, old(events), old(active), map[], [], {}, []);
        var after := Commands(Next(before, Arrive(token, event)), token, faults, 0, reconnects);
        && events == after.events && active == after.active
        && token in after.callers && phase == after.callers[token].phase
      ensures var before := State(ttls, now, old(events), old(active), map[], [], {}, []);
        var eventLive, activeLive := event.Some? && Live(EventKey(before, event.value), now), Live(old(active), now);
        && (phase.Admitted? || phase.Skipped?)
        && (phase.Admitted? <==> Admissible(eventLive, activeLive, event.Some?, faults, reconnects))
        && (phase == Skipped(DuplicateEvent) <==> Duplicate(eventLive, event.Some?, faults, reconnects))
        && (phase == Skipped(ActivePulse) <==> Busy(eventLive, activeLive, event.Some?, faults, reconnects))
        && OwnKeysOnly(before, token, event, before.(events := events, active := active))
      ensures phase.Admitted? ==> active == Some(Lock(token, now + ttls.active))
    {
      hide Commands, Command, Admissible, Duplicate, Busy, Live, SetNx;
      ghost var before := State(ttls, now, events, active, map[], [], {}, []);
      AdmissionDecision(before, token, event, faults, reconnects);
      phase := Attempts(token, event, faults, reconnects);
    }

    /** The two attempts; `faults` are those of the commands in order. */
    method Attempts(token: Token, event: Option<EventId>, faults: seq<Fault>, reconnects: bool) returns (phase: Phase)
      requires |faults| == 4
      modifies this`events, this`active
      ensures var before := State(ttls, now, old(events), old(active), map[], [], {}, []);
        var after := Commands(Next(before, Arrive(token, event)), token, faults, 0, reconnects);
        && events == after.events && active == after.active
        && token in after.callers && phase == after.callers[token].phase
    {
      hide Commands, Command;
      ghost var before := State(ttls, now, events, active, map[], [], {}, []);
      ghost var s := Next(before, Arrive(token, event));
      ghost var end := Commands(s, token, faults, 0, reconnects);
      assert s == At(s, events, active, token, event, First(event, 0, now));
      var k := 0;
      for attempt := 0 to 2
        invariant s.now == now && s.ttls == ttls
        invariant s == At(s, events, active, token, event, First(event, attempt, now))
        invariant attempt <= k <= 2 * attempt && end == Commands(s, token, faults, k, reconnects)
        invariant attempt < 2
      {
        phase, k, s := OneAttempt(token, event, attempt, faults, k, reconnects, s);
        if phase.Admitted? || phase.Skipped? {
          CommandsOver(s, token, faults, k, reconnects);
          return phase;
        }
      }
      assert false;
    }

    /** One attempt, command by command. `s`: the interleaving it is part of, `s'`: where that
        is afterwards; a failure of the first attempt leads to the second if the client reconnects. */
    method OneAttempt(token: Token, event: Option<EventId>, attempt: nat, faults: seq<Fault>, k: nat, reconnects: bool,
                      ghost s: State)
      returns (phase: Phase, k': nat, ghost s': State)
      requires attempt <= 1 && k + 2 <= |faults| && s.now == now && s.ttls == ttls
      requires s == At(s, events, active, token, event, First(event, attempt, now))
      modifies this`events, this`active
      ensures s'.events == events && s'.active == active && s'.now == now && s'.ttls == ttls
      ensures token in s'.callers && s'.callers[token] == Caller(event, phase)
      ensures k < k' <= k + 2
      ensures Commands(s, token, faults, k, reconnects) == Commands(s', token, faults, k', reconnects)
      ensures || phase.Admitted? || phase.Skipped?
              || (attempt == 0 && phase == First(event, 1, now) && s' == At(s', events, active, token, event, phase))
    {
      hide Commands, Command, SetNx;
      k', s' := k, s;
      var reply := Set;
      if event.Some? {
        EventCommandAt(s, events, active, token, event.value, attempt, faults[k], reconnects);
        CommandsStep(s, token, faults, k, reconnects);
        reply := SetEvent(event.value, token, faults[k]);
        s' := Command(s, token, faults[k], reconnects);
        k' := k + 1;
        if reply == Refused {
          return Skipped(DuplicateEvent), k', s';
        }
      }
      if reply == Set {
        ActiveCommandAt(s, events, active, token, event, attempt, faults[k'], reconnects);
        CommandsStep(s', token, faults, k', reconnects);
        reply := SetActive(token, faults[k']);
        s' := Command(s', token, faults[k'], reconnects);
        k' := k' + 1;
        if reply == Refused {
          return Skipped(ActivePulse), k', s';
        }
        if reply == Set {
          return Admitted, k', s';
        }
      }
      phase := if attempt == 1 || !reconnects then Skipped(Unavailable) else First(event, 1, now);
    }

    /** The release with nothing in between: the lock goes if it is the pulse's own, live, and
        neither command fails. */
    method ReleasePulseAdmission(token: Token, readFails: bool, deleteFails: bool)
      modifies this`active
      ensures active == if Live(old(active), now) && old(active).value.token == token && !readFails && !deleteFails
                        then None else old(active)
    {
      var own := !readFails && Live(active, now) && active.value.token == token;
      if own && !deleteFails {
        active := None;
      }
    }
  }

  lemma CommandsOver(s: State, token: Token, faults: seq<Fault>, k: nat, reconnects: bool)
    requires token in s.callers && k <= |faults| && Over(s, token)
    ensures Commands(s, token, faults, k, reconnects) == s
  {
  }
}
