/** Arithmetic of the traffic generator: compressing a timeline into a window, in floating
    point, and splitting a top-off into parts, in whole cents. */
module TrafficSchedule {
  import opened Options
  import opened Sums
  import opened Doubles

  const SECOND: int := 1_000_000
  const MINUTE: int := 60 * SECOND

  /** All of the calendar of Python's `datetime`, the years 1 to 9999, in microseconds. */
  const CALENDAR: int := 3_652_059 * 1440 * MINUTE

  /** A date and time, in microseconds. */
  type Instant = t: int | 0 <= t < CALENDAR

  datatype Kind = Authorization | CustomerAction | Other
  datatype Resolution = Settlement | Reversal

  /** `resolution`: how the policies settle or reverse an authorisation, if they do. */
  datatype Event = Event(id: string, offset: nat, kind: Kind, resolution: Option<Resolution>)

  datatype Entry =
    | EventEntry(id: string, at: int, card: Option<nat>)
    | ResolutionEntry(id: string, resolution: Resolution, at: int)

  const UNSCALED: real := 1.0

  /** The minutes an offset is scaled to. */
  function Minutes(offset: int, scale: real): int {
    RoundHalfEven(Double(Product(Double(offset as real), scale)))
  }

  function EventTime(start: Instant, offset: int, extra: int, scale: real): int {
    start + MINUTE * Minutes(offset + extra, scale)
  }

  function Reach(e: Event, delay: int): int {
    match e.kind
    case Authorization => Max(e.offset, e.offset + delay)
    case CustomerAction => e.offset
    case Other => 0
  }

  function Max(a: int, b: int): int { if a >= b then a else b }

  /** The latest minute any scheduled event or resolution needs. */
  function MaxOffset(timeline: seq<Event>, delay: int): (m: nat)
    ensures forall e <- timeline :: Reach(e, delay) <= m
    ensures m == 0 || exists e <- timeline :: Reach(e, delay) == m
  {
    if timeline == [] then 0
    else
      var n := |timeline| - 1;
      var rest := MaxOffset(timeline[..n], delay);
      assert forall e <- timeline :: e in timeline[..n] || e == timeline[n];
      Max(rest, Reach(timeline[n], delay))
  }

  /** The whole minutes of the window: its seconds as a float, divided down. */
  function Window(start: Instant, end: Instant): nat {
    Max(0, (Double((end - start) as real / 1000000.0) / 60.0).Floor)
  }

  function TimelineScale(timeline: seq<Event>, start: Instant, end: Option<Instant>, delay: int): real {
    if end.None? then UNSCALED
    else
      var length := MaxOffset(timeline, delay);
      var window := Window(start, end.value);
      if length <= 0 || window >= length then UNSCALED else Double(window as real / length as real)
  }

  // ---------------------------------------------------------- loops of the code

  method TimelineScheduleScale(timeline: seq<Event>, start: Instant, end: Option<Instant>,
                               delay: int) returns (scale: real)
    ensures scale == TimelineScale(timeline, start, end, delay)
  {
    if end.None? {
      return UNSCALED;
    }
    var maxOffset: int := 0;
    for i := 0 to |timeline|
      invariant maxOffset == MaxOffset(timeline[..i], delay)
    {
      var e := timeline[i];
      assert timeline[..i + 1][..i] == timeline[..i];
      if e.kind != Other {
        maxOffset := Max(maxOffset, e.offset);
        if e.kind == Authorization {
          maxOffset := Max(maxOffset, e.offset + delay);
        }
      }
    }
    assert timeline[..|timeline|] == timeline;
    if maxOffset <= 0 {
      return UNSCALED;
    }
    var window := Max(0, (Double((end.value - start) as real / 1000000.0) / 60.0).Floor);
    if window >= maxOffset {
      return UNSCALED;
    }
    return Double(window as real / maxOffset as real);
  }

  function Authorizations(timeline: seq<Event>): nat {
    if timeline == [] then 0
    else Authorizations(timeline[..|timeline| - 1]) + if timeline[|timeline| - 1].kind == Authorization then 1 else 0
  }

  /** What one event of the timeline puts on the schedule; authorisations take the cards in turn. */
  function EntriesOf(e: Event, turn: nat, start: Instant, scale: real, delay: int, cards: nat): seq<Entry>
    requires 0 < cards
  {
    var at := EventTime(start, e.offset, 0, scale);
    match e.kind
    case Other => []
    case CustomerAction => [EventEntry(e.id, at, None)]
    case Authorization =>
      [EventEntry(e.id, at, Some(turn % cards))]
      + match e.resolution
        case None => []
        case Some(r) => [ResolutionEntry(e.id, r, EventTime(start, e.offset, delay, scale))]
  }

  function Schedule(timeline: seq<Event>, start: Instant, scale: real, delay: int, cards: nat): seq<Entry>
    requires 0 < cards
  {
    if timeline == [] then []
    else
      var n := |timeline| - 1;
      Schedule(timeline[..n], start, scale, delay, cards)
      + EntriesOf(timeline[n], Authorizations(timeline[..n]), start, scale, delay, cards)
  }

  datatype Outcome =
    | Scheduled(entries: seq<Entry>, condensed: bool)
    | EndBeforeStart
    | NoCards

  method EnqueueSchedule(timeline: seq<Event>, start: Instant, end: Option<Instant>, delay: int,
                         cards: nat) returns (outcome: Outcome)
    ensures outcome.EndBeforeStart? <==> end.Some? && end.value < start
    ensures outcome.NoCards? <==> !(end.Some? && end.value < start) && cards == 0
    ensures outcome.Scheduled? ==>
      var scale := TimelineScale(timeline, start, end, delay);
      && 0 < cards && outcome.entries == Schedule(timeline, start, scale, delay, cards)
      && (outcome.condensed <==> scale < UNSCALED)
  {
    if end.Some? && end.value < start {
      return EndBeforeStart;
    }
    var scale := TimelineScheduleScale(timeline, start, end, delay);
    if cards == 0 {
      return NoCards;
    }
    var entries := [];
    var turn := 0;
    for i := 0 to |timeline|
      invariant turn == Authorizations(timeline[..i])
      invariant entries == Schedule(timeline[..i], start, scale, delay, cards)
    {
      var e := timeline[i];
      assert timeline[..i + 1][..i] == timeline[..i];
      if e.kind != Other {
        var at := EventTime(start, e.offset, 0, scale);
        if e.kind == Authorization {
          entries := entries + [EventEntry(e.id, at, Some(turn % cards))];
          turn := turn + 1;
          if e.resolution.Some? {
            entries := entries + [ResolutionEntry(e.id, e.resolution.value, EventTime(start, e.offset, delay, scale))];
          }
        } else {
          entries := entries + [EventEntry(e.id, at, None)];
        }
      }
    }
    assert timeline[..|timeline|] == timeline;
    return Scheduled(entries, scale < UNSCALED);
  }

  // ----------------------------------------------------------------- rounding

  lemma MulMonotone(a: int, b: int, c: int)
    requires a <= b && 0 <= c
    ensures a * c <= b * c
  {
    assert 0 <= (b - a) * c;
  }

  lemma DivMonotone(m: int, n: int, d: int)
    requires m <= n && 0 < d
    ensures m / d <= n / d
  {
    var k := m / d - n / d;
    assert k * d == (m / d) * d - (n / d) * d;
    assert k >= 1 ==> k * d >= d by {
      if k >= 1 {
        MulMonotone(1, k, d);
      }
    }
  }

  /** Scaling and rounding keep the order of offsets. */
  lemma OrderIsKept(start: Instant, a: int, b: int, scale: real)
    requires 0.0 <= scale && a <= b
    ensures Minutes(a, scale) <= Minutes(b, scale)
    ensures EventTime(start, a, 0, scale) <= EventTime(start, b, 0, scale)
  {
    hide Double;
    InOrder(a as real, b as real);
    ProductInOrder(Double(a as real), Double(b as real), scale);
    hide Product;
    InOrder(Product(Double(a as real), scale), Product(Double(b as real), scale));
    RoundMonotone(Double(Product(Double(a as real), scale)), Double(Product(Double(b as real), scale)));
  }

  lemma Scaled(a: real, b: real, c: real)
    requires a <= b && 0.0 <= c
    ensures a * c <= b * c
  {
  }

  lemma QuotientProper(w: nat, l: nat)
    requires w < l
    ensures var q := w as real / l as real;
      0.0 <= q < 1.0 && l as real * q == w as real && q * (w as real + 1.0) <= w as real
  {
    var q := w as real / l as real;
    assert l as real * q == w as real;
    assert 0.0 <= q;
    if q >= 1.0 {
      Scaled(1.0, q, l as real);
      assert false;
    }
    Scaled(w as real + 1.0, l as real, q);
  }

  lemma Gap(d: real, w: nat)
    requires 0.0 <= d && w < 0x2_0000_0000 && 1.0 <= d * (w as real + 1.0)
    ensures 1.0 <= d * 9007199254740992.0
  {
    NotNegative(d, 9007199254740992.0 - (w as real + 1.0));
  }

  /** Scales are between nothing and one, and one only if nothing is condensed. */
  lemma ScaleIsProper(w: nat, l: nat)
    requires w < l && w < 0x2_0000_0000
    ensures 0.0 <= Double(w as real / l as real) < 1.0
  {
    hide Double;
    var q := w as real / l as real;
    QuotientProper(w, l);
    Rounded(q);
    Gap(1.0 - q, w);
  }

  /** The seconds of a span as a float. */
  lemma SecondsRound(span: int)
    requires 0 <= span < CALENDAR
    ensures var x := span as real / 1000000.0;
      && 0.0 <= Double(x) <= x + 0.0000306
      && (span <= 17_179_869_184_000_000 ==> Double(x) < x + 0.000001)
      && (span < 34_359_738_368_000_000 ==> Double(x) < x + 0.000002)
  {
    hide Double, Power;
    var x := span as real / 1000000.0;
    SomePowers();
    Rounded(x);
    LastPlace(x, -14);
    if span < 34_359_738_368_000_000 {
      LastPlace(x, -18);
    }
    if span < 17_179_869_184_000_000 {
      LastPlace(x, -19);
    } else if span == 17_179_869_184_000_000 {
      assert x == 17_179_869_184 as real;
      WholeIsKept(17_179_869_184);
    }
  }

  /** The first span, in microseconds, of which the seconds are rounded up to a whole minute. */
  const FIRST_LATE: int := 17_179_869_239_999_999

  /** Rounding the seconds of a span to a float adds at most 30 microseconds in all of the
      calendar, and makes no difference to its whole minutes for all spans before the first. */
  lemma WindowFits(start: Instant, end: Instant)
    requires start <= end
    ensures MINUTE * Window(start, end) <= end - start + 30
    ensures end - start < FIRST_LATE ==> MINUTE * Window(start, end) <= end - start
    ensures Window(start, end) < 0x2_0000_0000
  {
    hide Double;
    SecondsRound(end - start);
    FloorFits(end - start, Double((end - start) as real / 1000000.0), Window(start, end));
  }

  lemma FloorFits(span: int, seconds: real, w: nat)
    requires 0 <= span < CALENDAR && 0.0 <= seconds && w == Max(0, (seconds / 60.0).Floor)
    requires seconds <= span as real / 1000000.0 + 0.0000306
    requires span <= 17_179_869_184_000_000 ==> seconds < span as real / 1000000.0 + 0.000001
    requires span < 34_359_738_368_000_000 ==> seconds < span as real / 1000000.0 + 0.000002
    ensures MINUTE * w <= span + 30
    ensures span < FIRST_LATE ==> MINUTE * w <= span
    ensures w < 0x2_0000_0000
  {
    assert w as real * 60.0 <= seconds;
    assert (60_000_000 * w) as real == w as real * 60000000.0;
    assert (60_000_000 * w) as real < (span + 31) as real;
    if span <= 17_179_869_184_000_000 {
      assert (60_000_000 * w) as real < (span + 1) as real;
    } else if span < FIRST_LATE {
      assert (60_000_000 * w) as real < (span + 2) as real;
      assert 60_000_000 * w <= span + 1;
      assert w <= 286331153;
    }
  }

  /** Two factors with the relative error of a rounding. */
  lemma ProductNear(a: real, b: real, x: real, y: real)
    requires 0.0 <= a && 0.0 <= b
    requires -a <= (x - a) * 9007199254740992.0 <= a && -b <= (y - b) * 9007199254740992.0 <= b
    ensures -2.5 * (a * b) <= (x * y - a * b) * 9007199254740992.0 <= 2.5 * (a * b)
  {
    var dx, dy := (x - a) * 9007199254740992.0, (y - b) * 9007199254740992.0;
    assert -(a * b) <= a * dy <= a * b;
    assert -(a * b) <= dx * b <= a * b;
    assert -(a * b) <= dx * dy <= a * b by {
      BoundedProduct(dx, a, dy, b);
    }
    assert x * y == (a + dx / 9007199254740992.0) * (b + dy / 9007199254740992.0);
    assert (x * y - a * b) * 9007199254740992.0 == a * dy + dx * b + dx * dy / 9007199254740992.0;
  }

  lemma BoundedProduct(x: real, a: real, y: real, b: real)
    requires -a <= x <= a && -b <= y <= b
    ensures -(a * b) <= x * y <= a * b
  {
    assert 0.0 <= (a - x) * (b + y) && 0.0 <= (a + x) * (b - y);
    assert 0.0 <= (a - x) * (b - y) && 0.0 <= (a + x) * (b + y);
  }

  lemma CloseEnough(product: real, rounded: real, w: nat)
    requires w < 0x2_0000_0000 && 0.0 <= product
    requires -2.5 * w as real <= (product - w as real) * 9007199254740992.0 <= 2.5 * w as real
    requires -product <= (rounded - product) * 9007199254740992.0 <= product
    ensures RoundHalfEven(rounded) == w
  {
    RoundNear(rounded, w);
  }

  /** The three roundings on the way move the farthest offset by less than half a minute. */
  lemma FarthestAt(l: nat, w: nat)
    requires w < l && w < 0x2_0000_0000
    ensures Minutes(l, Double(w as real / l as real)) == w
  {
    hide Double, RoundHalfEven;
    var q := w as real / l as real;
    QuotientProper(w, l);
    Rounded(q);
    Rounded(l as real);
    ProductNear(l as real, q, Double(l as real), Double(q));
    NotNegative(Double(l as real), Double(q));
    var product := Product(Double(l as real), Double(q));
    hide Product;
    Rounded(product);
    CloseEnough(product, Double(product), w);
  }

  lemma NotNegative(a: real, b: real)
    requires 0.0 <= a && 0.0 <= b
    ensures 0.0 <= a * b
  {
  }

  lemma WholeStays(n: nat)
    requires n < 0x2_0000_0000
    ensures Minutes(n, UNSCALED) == n
  {
    hide Double;
    assert Product(n as real, UNSCALED) == n as real;
    WholeIsKept(n);
    RoundNear(n as real, n);
  }

  /** An offset the scale was computed for ends up inside the window. */
  lemma InsideWindow(timeline: seq<Event>, start: Instant, end: Instant, delay: int, offset: int)
    requires start <= end && offset <= MaxOffset(timeline, delay)
    ensures Minutes(offset, TimelineScale(timeline, start, Some(end), delay)) <= Window(start, end)
  {
    hide Double, Minutes, Window, MaxOffset, EventTime;
    var scale := TimelineScale(timeline, start, Some(end), delay);
    var length, window := MaxOffset(timeline, delay), Window(start, end);
    WindowFits(start, end);
    if length <= 0 || window >= length {
      WholeStays(length);
    } else {
      ScaleIsProper(window, length);
      FarthestAt(length, window);
    }
    OrderIsKept(start, offset, length, scale);
  }

  /** A compressed timeline fills its window: the farthest offset any event needs is put
      at the last whole minute of it. */
  lemma FarthestFillsWindow(timeline: seq<Event>, start: Instant, end: Instant, delay: int)
    requires start <= end && Window(start, end) < MaxOffset(timeline, delay)
    ensures Minutes(MaxOffset(timeline, delay), TimelineScale(timeline, start, Some(end), delay)) == Window(start, end)
    ensures exists e <- timeline :: Reach(e, delay) == MaxOffset(timeline, delay)
  {
    hide Double, Minutes, Window;
    WindowFits(start, end);
    FarthestAt(MaxOffset(timeline, delay), Window(start, end));
  }

  /** The warning of a condensed timeline is given exactly when the window is too short. */
  lemma CondensedWhenShort(timeline: seq<Event>, start: Instant, end: Instant, delay: int)
    requires start <= end
    ensures TimelineScale(timeline, start, Some(end), delay) < UNSCALED
            <==> Window(start, end) < MaxOffset(timeline, delay)
  {
    hide Double, Window, MaxOffset;
    var length, window := MaxOffset(timeline, delay), Window(start, end);
    WindowFits(start, end);
    if window < length {
      ScaleIsProper(window, length);
    }
  }

  lemma {:induction false} EntryHasEvent(timeline: seq<Event>, start: Instant, scale: real, delay: int,
                                         cards: nat, x: Entry)
    returns (e: Event)
    requires 0 < cards && x in Schedule(timeline, start, scale, delay, cards)
    ensures e in timeline && e.kind != Other
    ensures x.at == EventTime(start, e.offset, if x.ResolutionEntry? then delay else 0, scale)
    ensures x.ResolutionEntry? ==> e.kind == Authorization
  {
    hide EventTime;
    var n := |timeline| - 1;
    if x in Schedule(timeline[..n], start, scale, delay, cards) {
      e := EntryHasEvent(timeline[..n], start, scale, delay, cards, x);
    } else {
      e := timeline[n];
    }
  }

  lemma FarEnough(timeline: seq<Event>, delay: int, e: Event, x: Entry)
    requires e in timeline && e.kind != Other && (x.ResolutionEntry? ==> e.kind == Authorization)
    ensures e.offset + (if x.ResolutionEntry? then delay else 0) <= MaxOffset(timeline, delay)
  {
    assert Reach(e, delay) <= MaxOffset(timeline, delay);
  }

  /** Nothing on a schedule comes later than the last whole minute of the window. */
  lemma EndsWithWindow(timeline: seq<Event>, start: Instant, end: Instant, delay: int, cards: nat, scale: real,
                       x: Entry)
    requires start <= end && 0 < cards
    requires scale == TimelineScale(timeline, start, Some(end), delay)
    requires x in Schedule(timeline, start, scale, delay, cards)
    ensures x.at <= start + MINUTE * Window(start, end)
  {
    hide Double, Minutes, Window, MaxOffset;
    var e := EntryHasEvent(timeline, start, scale, delay, cards, x);
    var extra := if x.ResolutionEntry? then delay else 0;
    FarEnough(timeline, delay, e, x);
    InsideWindow(timeline, start, end, delay, e.offset + extra);
    MulMonotone(Minutes(e.offset + extra, scale), Window(start, end), MINUTE);
  }

  /** One customer action that needs the whole window is put at the end of it. */
  lemma ActionAtWindow(start: Instant, end: Instant, id: string, delay: int, cards: nat)
    requires start <= end && 0 < cards
    ensures var timeline := [Event(id, Window(start, end), CustomerAction, None)];
      Schedule(timeline, start, TimelineScale(timeline, start, Some(end), delay), delay, cards)
      == [EventEntry(id, start + MINUTE * Window(start, end), None)]
  {
    hide Double, Window, Minutes;
    var k := Window(start, end);
    var timeline := [Event(id, k, CustomerAction, None)];
    assert timeline[..0] == [];
    assert MaxOffset(timeline, delay) == k;
    WindowFits(start, end);
    WholeStays(k);
  }

  /** Everything on every schedule, authorisations, customer actions, settlements and
      reversals, happens by the end. */
  ghost predicate AllInTime(start: Instant, end: Instant, delay: int, cards: nat)
    requires 0 < cards
  {
    forall timeline, x ::
      x in Schedule(timeline, start, TimelineScale(timeline, start, Some(end), delay), delay, cards) ==> x.at <= end
  }

  /** Exactly when schedules end in time: when the minutes of the window, as the code measures
      them, fit before the end. They do for every span before the first that is rounded up,
      of 544 years; and at no time is anything later than 30 microseconds after the end. */
  lemma ScheduleEndsInTime(start: Instant, end: Instant, delay: int, cards: nat)
    requires start <= end && 0 < cards
    ensures AllInTime(start, end, delay, cards) <==> MINUTE * Window(start, end) <= end - start
    ensures end - start < FIRST_LATE ==> AllInTime(start, end, delay, cards)
    ensures forall timeline, x ::
              x in Schedule(timeline, start, TimelineScale(timeline, start, Some(end), delay), delay, cards) ==>
                x.at <= end + 30
  {
    hide Double, Window, Schedule, TimelineScale;
    WindowFits(start, end);
    forall timeline, x |
      x in Schedule(timeline, start, TimelineScale(timeline, start, Some(end), delay), delay, cards)
      ensures x.at <= start + MINUTE * Window(start, end)
    {
      EndsWithWindow(timeline, start, end, delay, cards, TimelineScale(timeline, start, Some(end), delay), x);
    }
    ActionAtWindow(start, end, "", delay, cards);
    var timeline := [Event("", Window(start, end), CustomerAction, None)];
    assert EventEntry("", start + MINUTE * Window(start, end), None)
        in Schedule(timeline, start, TimelineScale(timeline, start, Some(end), delay), delay, cards);
  }

  /** A span `d` microseconds short of `k` minutes is measured as `k` minutes if that is less
      than half of the last place of its seconds; an event that needs them is `d` late. */
  lemma LateByRounding(start: Instant, end: Instant, k: nat, d: nat, e: int, id: string, delay: int, cards: nat)
    requires 0 < k < 0x2_0000_0000 && 0 < cards && start <= end == start + k * MINUTE - d
    requires Fits((end - start) as real / 1000000.0, e) && Fits(k as real * 60.0, e)
    requires d as real / 1000000.0 < Power(e) / 2.0
    ensures var timeline := [Event(id, k, CustomerAction, None)];
      Schedule(timeline, start, TimelineScale(timeline, start, Some(end), delay), delay, cards)
      == [EventEntry(id, end + d, None)]
  {
    hide Double, Power;
    var x := (end - start) as real / 1000000.0;
    assert x == k as real * 60.0 - d as real / 1000000.0;
    assert k as real * 60.0 == (60 * k) as real;
    var m := WholeNumber(60 * k, e);
    NearestIs(x, e, m);
    assert Double(x) / 60.0 == k as real;
    assert Window(start, end) == k;
    ActionAtWindow(start, end, id, delay, cards);
  }

  /** The first span that fails: 286331154 minutes less a microsecond, from any start, the
      calendar permitting. */
  lemma FirstLate(start: Instant, end: Instant, id: string, delay: int, cards: nat)
    requires end == start + FIRST_LATE && 0 < cards
    ensures var timeline := [Event(id, 286331154, CustomerAction, None)];
      Schedule(timeline, start, TimelineScale(timeline, start, Some(end), delay), delay, cards)
      == [EventEntry(id, end + 1, None)]
    ensures !AllInTime(start, end, delay, cards)
  {
    hide Power, Schedule, TimelineScale;
    SomePowers();
    LateByRounding(start, end, 286331154, 1, -18, id, delay, cards);
    var timeline := [Event(id, 286331154, CustomerAction, None)];
    assert EventEntry(id, end + 1, None)
        in Schedule(timeline, start, TimelineScale(timeline, start, Some(end), delay), delay, cards);
  }

  /** The greatest delay is reached too: 4581298450 minutes less 30 microseconds. */
  lemma LatestLate(start: Instant, end: Instant, id: string, delay: int, cards: nat)
    requires end == start + 4581298450 * MINUTE - 30 && 0 < cards
    ensures var timeline := [Event(id, 4581298450, CustomerAction, None)];
      Schedule(timeline, start, TimelineScale(timeline, start, Some(end), delay), delay, cards)
      == [EventEntry(id, end + 30, None)]
  {
    hide Power, Schedule, TimelineScale;
    SomePowers();
    LateByRounding(start, end, 4581298450, 30, -14, id, delay, cards);
  }

  // -------------------------------------------------- what is on the schedule

  /** How many entries an event asks for. */
  function Width(): Event -> int {
    (e: Event) => if e.kind == Other then 0 else if e.kind == Authorization && e.resolution.Some? then 2 else 1
  }

  /** Where the entries of event `i` begin: after those of all earlier events. */
  function Place(timeline: seq<Event>, i: nat): int
    requires i <= |timeline|
  {
    Sum(timeline[..i], Width())
  }

  /** Event `i` is scheduled at its place: an action or authorisation at its time, the
      authorisation with a card, and its resolution, if it has one, at the delayed time. */
  ghost predicate OnSchedule(entries: seq<Entry>, timeline: seq<Event>, i: nat, start: Instant, scale: real, delay: int,
                             cards: nat)
    requires i < |timeline| && 0 < cards
  {
    var e, k := timeline[i], Place(timeline, i);
    && 0 <= k && k + Width()(e) <= |entries|
    && (e.kind == CustomerAction ==> entries[k] == EventEntry(e.id, start + MINUTE * Minutes(e.offset, scale), None))
    && (e.kind == Authorization ==>
          entries[k] == EventEntry(e.id, start + MINUTE * Minutes(e.offset, scale),
                                   Some(|AuthorizedBefore(timeline, i)| % cards)))
    && (e.kind == Authorization && e.resolution.Some? ==>
          entries[k + 1] == ResolutionEntry(e.id, e.resolution.value,
                                            start + MINUTE * Minutes(e.offset + delay, scale)))
  }

  function AuthorizedBefore(timeline: seq<Event>, i: nat): set<nat>
    requires i <= |timeline|
  {
    set j: nat | j < i && timeline[j].kind == Authorization
  }

  lemma {:induction false} AuthorizationsAreCounted(timeline: seq<Event>, i: nat)
    requires i <= |timeline|
    ensures Authorizations(timeline[..i]) == |AuthorizedBefore(timeline, i)|
  {
    if i == 0 {
      assert AuthorizedBefore(timeline, 0) == {};
    } else {
      AuthorizationsAreCounted(timeline, i - 1);
      assert timeline[..i][..i - 1] == timeline[..i - 1];
      assert AuthorizedBefore(timeline, i)
          == AuthorizedBefore(timeline, i - 1) + if timeline[i - 1].kind == Authorization then {i - 1} else {};
    }
  }

  /** Later entries leave the earlier ones in their places. */
  lemma StaysOnSchedule(entries: seq<Entry>, more: seq<Entry>, timeline: seq<Event>, i: nat, start: Instant,
                        scale: real, delay: int, cards: nat)
    requires timeline != [] && i < |timeline| - 1 && 0 < cards
    requires OnSchedule(entries, timeline[..|timeline| - 1], i, start, scale, delay, cards)
    ensures OnSchedule(entries + more, timeline, i, start, scale, delay, cards)
  {
    hide Minutes, Sum;
    var earlier := timeline[..|timeline| - 1];
    assert earlier[..i] == timeline[..i] && earlier[i] == timeline[i];
    assert AuthorizedBefore(earlier, i) == AuthorizedBefore(timeline, i);
  }

  lemma LastOnSchedule(entries: seq<Entry>, timeline: seq<Event>, start: Instant, scale: real, delay: int, cards: nat)
    requires timeline != [] && 0 < cards && |entries| == Place(timeline, |timeline| - 1)
    ensures var n := |timeline| - 1; var e := timeline[n];
      var more := EntriesOf(e, Authorizations(timeline[..n]), start, scale, delay, cards);
      |more| == Width()(e) && OnSchedule(entries + more, timeline, n, start, scale, delay, cards)
  {
    hide Minutes, Sum;
    AuthorizationsAreCounted(timeline, |timeline| - 1);
    hide AuthorizedBefore, Authorizations;
  }

  /** The whole schedule: every authorisation, customer action and resolution of the timeline
      once, in its order, the k-th authorisation with card `k` modulo their number, and
      nothing else. */
  lemma {:induction false} ScheduleHolds(timeline: seq<Event>, start: Instant, scale: real, delay: int, cards: nat,
                                         entries: seq<Entry>)
    requires 0 < cards && entries == Schedule(timeline, start, scale, delay, cards)
    ensures |entries| == Sum(timeline, Width())
    ensures forall i: nat :: i < |timeline| ==> OnSchedule(entries, timeline, i, start, scale, delay, cards)
  {
    if timeline != [] {
      var n := |timeline| - 1;
      var earlier := Schedule(timeline[..n], start, scale, delay, cards);
      var more := EntriesOf(timeline[n], Authorizations(timeline[..n]), start, scale, delay, cards);
      assert entries == earlier + more;
      hide Schedule, EntriesOf, Authorizations, OnSchedule;
      ScheduleHolds(timeline[..n], start, scale, delay, cards, earlier);
      assert timeline == timeline[..n] + [timeline[n]];
      SumAppend(timeline[..n], timeline[n], Width());
      hide Sum;
      LastOnSchedule(earlier, timeline, start, scale, delay, cards);
      forall i: nat | i < n ensures OnSchedule(entries, timeline, i, start, scale, delay, cards) {
        StaysOnSchedule(earlier, more, timeline, i, start, scale, delay, cards);
      }
    }
  }

  /** Without an end, or with a window that is long enough, every time is exact. */
  lemma UncompressedIsExact(timeline: seq<Event>, start: Instant, end: Option<Instant>, delay: int, offset: nat,
                            extra: int)
    requires end.None? || MaxOffset(timeline, delay) <= Window(start, end.value)
    requires 0 <= offset + extra < 0x2_0000_0000
    ensures EventTime(start, offset, extra, TimelineScale(timeline, start, end, delay))
      == start + MINUTE * (offset + extra)
  {
    hide Double, Window, MaxOffset, Minutes;
    WholeStays(offset + extra);
  }

  /** A compressed offset is put at the minute nearest to its share of the window, but for
      an error of the three roundings of less than four millionths. */
  lemma CompressedIsNear(timeline: seq<Event>, start: Instant, end: Instant, delay: int, m: nat, l: nat, w: nat)
    requires start <= end && w == Window(start, end) && l == MaxOffset(timeline, delay) && m <= l && w < l
    ensures var scale := TimelineScale(timeline, start, Some(end), delay);
      var share := m as real * (w as real / l as real);
      share - 0.500004 <= Minutes(m, scale) as real <= share + 0.500004
  {
    hide Minutes, Double, Window, MaxOffset;
    WindowFits(start, end);
    ScaledIsNear(m, l, w);
  }

  lemma ScaledIsNear(m: nat, l: nat, w: nat)
    requires m <= l && w < l && w < 0x2_0000_0000
    ensures var share := m as real * (w as real / l as real);
      share - 0.500004 <= Minutes(m, Double(w as real / l as real)) as real <= share + 0.500004
  {
    hide Double, RoundHalfEven;
    var q := w as real / l as real;
    QuotientProper(w, l);
    Rounded(q);
    Rounded(m as real);
    ProductNear(m as real, q, Double(m as real), Double(q));
    NotNegative(Double(m as real), Double(q));
    NotNegative(m as real, q);
    Scaled(m as real, l as real, q);
    var product, share := Product(Double(m as real), Double(q)), m as real * q;
    hide Product;
    Rounded(product);
    ErrorIsSmall(share, product, Double(product), w);
    RoundIsNear(Double(product));
  }

  lemma ErrorIsSmall(share: real, product: real, rounded: real, w: nat)
    requires w < 0x2_0000_0000 && 0.0 <= share <= w as real && 0.0 <= product
    requires -2.5 * share <= (product - share) * 9007199254740992.0 <= 2.5 * share
    requires -product <= (rounded - product) * 9007199254740992.0 <= product
    ensures share - 0.000004 <= rounded <= share + 0.000004
  {
    assert share - 0.0000025 <= product <= share + 0.0000025;
  }

  /** No resolution precedes its authorisation when the delay is not negative, and no
      authorisation the start, whatever the rounding. */
  lemma ResolutionFollows(start: Instant, e: Event, delay: int, scale: real)
    requires 0.0 <= scale && 0 <= delay
    ensures EventTime(start, e.offset, 0, scale) <= EventTime(start, e.offset, delay, scale)
    ensures start <= EventTime(start, e.offset, 0, scale)
  {
    hide Double;
    OrderIsKept(start, e.offset, e.offset + delay, scale);
    OrderIsKept(start, 0, e.offset, scale);
    WholeIsKept(0);
    assert Product(0.0, scale) == 0.0;
    RoundNear(0.0, 0);
    hide Product, RoundHalfEven;
  }

  // ------------------------------------------------------------- apportionment

  predicate Positive(s: seq<int>) {
    forall i :: 0 <= i < |s| ==> 0 < s[i]
  }

  function Total(s: seq<int>): (r: int)
    ensures Positive(s) ==> |s| <= r
  {
    if s == [] then 0 else Total(s[..|s| - 1]) + s[|s| - 1]
  }

  lemma TotalAppend(s: seq<int>, x: int)
    ensures Total(s + [x]) == Total(s) + x
  {
    assert (s + [x])[..|s|] == s;
  }

  /** A product by name, so that sums of products stay linear. */
  function Times(a: int, b: int): int { a * b }

  /** One cent and a share of the rest. */
  function Part(distributable: nat, weight: int, whole: int): int
    requires 0 < whole
  {
    1 + distributable * weight / whole
  }

  lemma PartBounds(distributable: nat, weight: int, whole: int)
    requires 0 < whole && 0 < weight
    ensures var share := Part(distributable, weight, whole) - 1;
      && Times(weight, distributable) - whole < Times(share, whole) <= Times(weight, distributable)
      && 0 <= share
  {
    var product := distributable * weight;
    assert 0 <= product;
    DivMonotone(0, product, whole);
    assert product == (product / whole) * whole + product % whole;
  }

  lemma Distribute(a: int, b: int, c: int)
    ensures Times(a + b, c) == Times(a, c) + Times(b, c)
    ensures Times(0, c) == 0 && Times(1, c) == c
  {
  }

  lemma Cancel(a: int, b: int, d: int)
    requires 0 < d
    ensures Times(a, d) <= Times(b, d) ==> a <= b
    ensures Times(a, d) < Times(b, d) ==> a < b
  {
    if a > b {
      MulMonotone(b + 1, a, d);
      Distribute(b, 1, d);
    }
  }

  /** The parts of some weights, before the remainder is added. */
  function Parts(distributable: nat, weights: seq<int>, whole: int): (r: seq<int>)
    requires 0 < whole
    ensures |r| == |weights|
    ensures forall i :: 0 <= i < |weights| ==> r[i] == Part(distributable, weights[i], whole)
  {
    seq(|weights|, i requires 0 <= i < |weights| => Part(distributable, weights[i], whole))
  }

  lemma PartsStep(distributable: nat, weights: seq<int>, whole: int)
    requires 0 < whole && weights != []
    ensures var n := |weights| - 1;
      Parts(distributable, weights, whole)
      == Parts(distributable, weights[..n], whole) + [Part(distributable, weights[n], whole)]
  {
    hide Part;
  }

  /** They fall short of their exact shares by less than a cent each. */
  lemma {:induction false} PartsBounds(distributable: nat, weights: seq<int>, whole: int)
    requires 0 < whole && Positive(weights)
    ensures var given := Total(Parts(distributable, weights, whole)) - |weights|;
      && Times(given, whole) <= Times(Total(weights), distributable)
      && Times(Total(weights), distributable) - Times(|weights|, whole) <= Times(given, whole)
      && (weights != [] ==> Times(Total(weights), distributable) - Times(|weights|, whole) < Times(given, whole))
  {
    hide Part, Times, Parts;
    if weights == [] {
      Distribute(0, 0, whole);
      Distribute(0, 0, distributable);
    } else {
      var n := |weights| - 1;
      PartsBounds(distributable, weights[..n], whole);
      PartBounds(distributable, weights[n], whole);
      var earlier := Parts(distributable, weights[..n], whole);
      var share := Part(distributable, weights[n], whole) - 1;
      PartsStep(distributable, weights, whole);
      TotalAppend(earlier, 1 + share);
      Distribute(Total(earlier) - n, share, whole);
      Distribute(Total(weights[..n]), weights[n], distributable);
      Distribute(n, 1, whole);
    }
  }

  /** What rounding leaves over is less than one cent a part. */
  lemma RemainderIsSmall(distributable: nat, weights: seq<int>)
    requires weights != [] && Positive(weights)
    ensures var given := Total(Parts(distributable, weights, Total(weights)));
      0 <= distributable + |weights| - given < |weights|
  {
    hide Part, Times, Parts, Total;
    var whole, n := Total(weights), |weights|;
    var given := Total(Parts(distributable, weights, whole));
    PartsBounds(distributable, weights, whole);
    var left := distributable - n;
    Commutes(whole, distributable);
    Distribute(left, n, whole);
    assert left + n == distributable;
    Cancel(given - n, distributable, whole);
    Cancel(left, given - n, whole);
  }

  lemma Commutes(a: int, b: int)
    ensures Times(a, b) == Times(b, a)
  {
  }

  /** Splits a target by positive weights; what rounding leaves goes to the last part. */
  method TopOffSplit(target: int, weights: seq<int>) returns (amounts: seq<int>, remainder: int)
    requires 1 <= target && |weights| == (if target < 4 then target else 4) && Positive(weights)
    ensures |amounts| == |weights| && Total(amounts) == target
    ensures 0 <= remainder < |weights|
    ensures forall i :: 0 <= i < |amounts| ==>
      && 1 <= amounts[i]
      && amounts[i]
         == Part(target - |weights|, weights[i], Total(weights)) + (if i == |weights| - 1 then remainder else 0)
  {
    hide Part, Parts, Times;
    var count := |weights|;
    var distributable := target - count;
    var whole := Total(weights);
    amounts := [];
    for i := 0 to count
      invariant amounts == Parts(distributable, weights[..i], whole)
    {
      PartsStep(distributable, weights[..i + 1], whole);
      assert weights[..i + 1][..i] == weights[..i];
      amounts := amounts + [Part(distributable, weights[i], whole)];
    }
    assert weights[..count] == weights;
    remainder := target - Total(amounts);
    RemainderIsSmall(distributable, weights);
    forall i | 0 <= i < count ensures 1 <= amounts[i] {
      PartBounds(distributable, weights[i], whole);
    }
    TotalUpdateLast(amounts, remainder);
    amounts := amounts[count - 1 := amounts[count - 1] + remainder];
  }

  lemma TotalUpdateLast(s: seq<int>, x: int)
    requires s != []
    ensures Total(s[|s| - 1 := s[|s| - 1] + x]) == Total(s) + x
  {
    var n := |s| - 1;
    assert s[n := s[n] + x] == s[..n] + [s[n] + x];
    TotalAppend(s[..n], s[n] + x);
  }
}
