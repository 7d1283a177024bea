/** The event-handling state machine of the driver, as pure functions of the
    four globals: what one interrupt on a column does to them and which
    events it sends, and what a sequence of interrupts does. */
module Handlers {
  import opened CTypes
  import opened Time
  import opened Keys

  /** Debounce window of the plain columns 0-2, against `lastInterruptTime`. */
  const PLAIN_DEBOUNCE_MS: uint32 := 250
  /** Debounce window of column 3, also against `lastInterruptTime`. */
  const GESTURE_DEBOUNCE_MS: uint32 := 80
  /** Column-3 events closer than this to `lastPressTime` form a burst. */
  const BURST_WINDOW_MS: uint32 := 350
  /** A rapid column-3 event toggles the state once `pressCounter` exceeds this. */
  const TOGGLE_ABOVE: uint16 := 6
  const GESTURE_COLUMN: Column := 3

  /** The driver's four globals: `state` (the active key-map row),
      `pressCounter`, `lastInterruptTime` and `lastPressTime`. */
  datatype DriverState = DriverState(state: bv16, pressCounter: uint16,
                                     lastInterruptTime: uint32, lastPressTime: uint32)
  {
    /** `state` names a row of the key map, and the counter never passes the
        value at which the next rapid event toggles. */
    predicate Valid()
    {
      state < 2 && pressCounter <= TOGGLE_ABOVE + 1
    }
  }

  /** The static initialisers: all four globals start at 0. */
  const INITIAL: DriverState := DriverState(0, 0, 0, 0)

  /** The globals after one interrupt, and what it sent to the input device. */
  datatype Reaction = Reaction(next: DriverState, emitted: seq<InputEvent>)

  /** One edge on a column, seen at the given (32-bit) millisecond time. */
  datatype Edge = Edge(column: Column, now: uint32)

  /** `InterruptHandler_general`: ignore the edge if it comes less than 250 ms
      after the last accepted plain key; otherwise tap the key of the current
      row, remember the time and cancel any gesture burst. */
  function General(s: DriverState, column: Column, now: uint32): (r: Reaction)
    requires s.Valid()
    ensures r.next.Valid()
  {
    if Elapsed(now, s.lastInterruptTime) < PLAIN_DEBOUNCE_MS then
      Reaction(s, [])
    else
      Reaction(s.(lastInterruptTime := now, pressCounter := 0), Tap(Lookup(s.state, column)))
  }

  /** `InterruptHandler_3`: ignore the edge if it comes less than 80 ms after
      the last accepted plain key. Otherwise, inside a burst, toggle the row
      when the counter is past 6 and count the event silently when it is not;
      outside a burst, tap the column-3 key of the current row. */
  function Gesture(s: DriverState, now: uint32): (r: Reaction)
    requires s.Valid()
    ensures r.next.Valid()
  {
    if Elapsed(now, s.lastInterruptTime) < GESTURE_DEBOUNCE_MS then
      Reaction(s, [])
    else if Elapsed(now, s.lastPressTime) < BURST_WINDOW_MS then
      if s.pressCounter > TOGGLE_ABOVE then
        Reaction(s.(state := s.state ^ 1, pressCounter := 0, lastPressTime := now), [])
      else
        Reaction(s.(pressCounter := Increment(s.pressCounter), lastPressTime := now), [])
    else
      Reaction(s.(pressCounter := 0, lastPressTime := now), Tap(Lookup(s.state, GESTURE_COLUMN)))
  }

  /** The handler registered for the edge's column: `InterruptHandler_0` to
      `_2` pass their column to the general handler, `InterruptHandler_3` is
      the gesture handler. */
  function Step(s: DriverState, e: Edge): (r: Reaction)
    requires s.Valid()
    ensures r.next.Valid()
  {
    if e.column == GESTURE_COLUMN then Gesture(s, e.now) else General(s, e.column, e.now)
  }

  /** The interrupts handled one after the other, each atomically; the events
      sent are those of every step, in order. */
  function Run(s: DriverState, edges: seq<Edge>): (r: Reaction)
    requires s.Valid()
    ensures r.next.Valid()
    decreases |edges|
  {
    if edges == [] then Reaction(s, [])
    else
      var first := Step(s, edges[0]);
      var rest := Run(first.next, edges[1..]);
      Reaction(rest.next, first.emitted + rest.emitted)
  }

  /** Column-3 edges at the given times. */
  function GestureEdges(times: seq<uint32>): seq<Edge>
  {
    if times == [] then [] else [Edge(GESTURE_COLUMN, times[0])] + GestureEdges(times[1..])
  }

  // ---------------------------------------------------------------------
  // One interrupt on a plain column

  /** A plain edge within 250 ms (modulo 2^32) of the last accepted plain key
      sends nothing and changes none of the four globals. */
  lemma PlainBounceIgnored(s: DriverState, column: Column, now: uint32)
    requires s.Valid()
    requires Elapsed(now, s.lastInterruptTime) < PLAIN_DEBOUNCE_MS
    ensures General(s, column, now).emitted == []
    ensures General(s, column, now).next == s
  {
  }

  /** An accepted plain edge types exactly the key of the current row and
      column, restarts the debounce window at `now` and cancels the gesture
      count; the row and `lastPressTime` stay. */
  lemma PlainAccepted(s: DriverState, column: Column, now: uint32)
    requires s.Valid()
    requires Elapsed(now, s.lastInterruptTime) >= PLAIN_DEBOUNCE_MS
    ensures var r := General(s, column, now);
      && Reported(r.emitted, PRESSED) == [KEY_MAP[s.state][column]]
      && r.emitted == Taps([KEY_MAP[s.state][column]])
      && r.next.lastInterruptTime == now && r.next.pressCounter == 0
      && r.next.state == s.state && r.next.lastPressTime == s.lastPressTime
  {
    var code := Lookup(s.state, column);
    TapReports(code);
    assert Taps([code]) == Tap(code) + Taps([]);
  }

  // ---------------------------------------------------------------------
  // One interrupt on the gesture column

  /** A column-3 edge within 80 ms of the last accepted plain key sends
      nothing and changes nothing. */
  lemma GestureBounceIgnored(s: DriverState, now: uint32)
    requires s.Valid()
    requires Elapsed(now, s.lastInterruptTime) < GESTURE_DEBOUNCE_MS
    ensures Gesture(s, now) == Reaction(s, [])
  {
  }

  /** The gesture handler never writes `lastInterruptTime`, whatever path it
      takes. */
  lemma GestureKeepsInterruptTime(s: DriverState, now: uint32)
    requires s.Valid()
    ensures Gesture(s, now).next.lastInterruptTime == s.lastInterruptTime
  {
  }

  /** The eighth rapid event of a burst (the counter already at 7) switches
      the key-map row and sends nothing. */
  lemma GestureToggles(s: DriverState, now: uint32)
    requires s.Valid()
    requires Elapsed(now, s.lastInterruptTime) >= GESTURE_DEBOUNCE_MS
    requires Elapsed(now, s.lastPressTime) < BURST_WINDOW_MS
    requires s.pressCounter > TOGGLE_ABOVE
    ensures var r := Gesture(s, now);
      && r.emitted == [] && r.next.state != s.state && r.next.state < 2
      && r.next.pressCounter == 0 && r.next.lastPressTime == now
      && r.next.lastInterruptTime == s.lastInterruptTime
  {
  }

  /** An earlier rapid event of a burst is counted and sends nothing. */
  lemma GestureCounts(s: DriverState, now: uint32)
    requires s.Valid()
    requires Elapsed(now, s.lastInterruptTime) >= GESTURE_DEBOUNCE_MS
    requires Elapsed(now, s.lastPressTime) < BURST_WINDOW_MS
    requires s.pressCounter <= TOGGLE_ABOVE
    ensures var r := Gesture(s, now);
      && r.emitted == [] && r.next.state == s.state
      && r.next.pressCounter == s.pressCounter + 1 && r.next.lastPressTime == now
      && r.next.lastInterruptTime == s.lastInterruptTime
  {
  }

  /** A column-3 event that does not follow the previous one within 350 ms
      types the column-3 key of the current row and starts a new count. */
  lemma GestureSlowTaps(s: DriverState, now: uint32)
    requires s.Valid()
    requires Elapsed(now, s.lastInterruptTime) >= GESTURE_DEBOUNCE_MS
    requires Elapsed(now, s.lastPressTime) >= BURST_WINDOW_MS
    ensures var r := Gesture(s, now);
      && Reported(r.emitted, PRESSED) == [KEY_MAP[s.state][GESTURE_COLUMN]]
      && r.emitted == Taps([KEY_MAP[s.state][GESTURE_COLUMN]])
      && r.next.state == s.state && r.next.pressCounter == 0
      && r.next.lastPressTime == now && r.next.lastInterruptTime == s.lastInterruptTime
  {
    var code := Lookup(s.state, GESTURE_COLUMN);
    TapReports(code);
    assert Taps([code]) == Tap(code) + Taps([]);
  }

  // ---------------------------------------------------------------------
  // Sequences of interrupts

  /** Handling `a` and then `b` is handling `a + b`. */
  lemma {:induction false} RunAppend(s: DriverState, a: seq<Edge>, b: seq<Edge>)
    requires s.Valid()
    decreases |a|
    ensures var ra := Run(s, a);
      var rb := Run(ra.next, b);
      Run(s, a + b) == Reaction(rb.next, ra.emitted + rb.emitted)
  {
    if a == [] {
      assert a + b == b;
    } else {
      assert (a + b)[0] == a[0];
      assert (a + b)[1..] == a[1..] + b;
      var first := Step(s, a[0]);
      RunAppend(first.next, a[1..], b);
      var ra' := Run(first.next, a[1..]);
      var rb := Run(ra'.next, b);
      assert first.emitted + (ra'.emitted + rb.emitted) == (first.emitted + ra'.emitted) + rb.emitted;
    }
  }

  /** The output of a single interrupt is a whole number of taps. */
  lemma StepEmitsTaps(s: DriverState, e: Edge)
    requires s.Valid()
    ensures Step(s, e).emitted == Taps(Reported(Step(s, e).emitted, PRESSED))
  {
    var r := Step(s, e);
    if r.emitted != [] {
      var code :| r.emitted == Tap(code);
      TapReports(code);
      assert Taps([code]) == Tap(code) + Taps([]);
    }
  }

  /** Whatever the interrupts, the input device only ever sees whole taps:
      each key pressed is released right after, and the pressed keys read back
      from the log give the log again. */
  lemma {:induction false} RunEmitsTaps(s: DriverState, edges: seq<Edge>)
    requires s.Valid()
    ensures var log := Run(s, edges).emitted;
      log == Taps(Reported(log, PRESSED)) && Reported(log, PRESSED) == Reported(log, RELEASED)
    decreases |edges|
  {
    var log := Run(s, edges).emitted;
    if edges != [] {
      var first := Step(s, edges[0]);
      var rest := Run(first.next, edges[1..]);
      StepEmitsTaps(s, edges[0]);
      RunEmitsTaps(first.next, edges[1..]);
      var c0 := Reported(first.emitted, PRESSED);
      var c1 := Reported(rest.emitted, PRESSED);
      ReportedAppend(first.emitted, rest.emitted, PRESSED);
      TapsAppend(c0, c1);
    }
    TapsRoundTrip(Reported(log, PRESSED));
  }

  /** Column-3 interrupts alone never move `lastInterruptTime`. */
  lemma {:induction false} GesturesKeepInterruptTime(s: DriverState, times: seq<uint32>)
    requires s.Valid()
    ensures Run(s, GestureEdges(times)).next.lastInterruptTime == s.lastInterruptTime
    decreases |times|
  {
    if times != [] {
      var edges := GestureEdges(times);
      assert edges[1..] == GestureEdges(times[1..]);
      GesturesKeepInterruptTime(Gesture(s, times[0]).next, times[1..]);
    }
  }

  /** Column-3 events at `times`, each passing the 80 ms debounce against
      `interruptTime` (which they do not change) and each less than 350 ms
      after the previous one, the first less than 350 ms after `pressTime`. */
  predicate RapidAfter(interruptTime: uint32, pressTime: uint32, times: seq<uint32>)
    decreases |times|
  {
    times == [] ||
    (&& Elapsed(times[0], interruptTime) >= GESTURE_DEBOUNCE_MS
     && Elapsed(times[0], pressTime) < BURST_WINDOW_MS
     && RapidAfter(interruptTime, times[0], times[1..]))
  }

  /** A rapid burst seen from the driver's globals. */
  predicate RapidBurst(s: DriverState, times: seq<uint32>)
  {
    RapidAfter(s.lastInterruptTime, s.lastPressTime, times)
  }

  /** A rapid burst that keeps the counter at or below 7 is swallowed: no key,
      the same row, the counter advanced by the number of events. */
  lemma {:induction false} BurstCounts(s: DriverState, times: seq<uint32>)
    requires s.Valid() && RapidBurst(s, times)
    requires s.pressCounter as int + |times| <= TOGGLE_ABOVE as int + 1
    ensures var r := Run(s, GestureEdges(times));
      && r.emitted == [] && r.next.state == s.state
      && r.next.pressCounter as int == s.pressCounter as int + |times|
      && r.next.lastInterruptTime == s.lastInterruptTime
      && r.next.lastPressTime == if times == [] then s.lastPressTime else times[|times| - 1]
    decreases |times|
  {
    if times != [] {
      var edges := GestureEdges(times);
      assert edges[1..] == GestureEdges(times[1..]);
      GestureCounts(s, times[0]);
      BurstCounts(Gesture(s, times[0]).next, times[1..]);
    }
  }

  /** A rapid burst that takes the counter from `c` to the toggle, i.e. of
      8 - c events (eight from a counter of 0), switches the row exactly once,
      sends nothing and leaves the counter at 0, so the next rapid event starts
      a new count. */
  lemma {:induction false} BurstToggles(s: DriverState, times: seq<uint32>)
    requires s.Valid() && RapidBurst(s, times)
    requires s.pressCounter as int + |times| == TOGGLE_ABOVE as int + 2
    ensures var r := Run(s, GestureEdges(times));
      && r.emitted == [] && r.next.state == s.state ^ 1 && r.next.state != s.state
      && r.next.pressCounter == 0
      && r.next.lastInterruptTime == s.lastInterruptTime
      && r.next.lastPressTime == times[|times| - 1]
    decreases |times|
  {
    var edges := GestureEdges(times);
    assert edges[1..] == GestureEdges(times[1..]);
    if |times| == 1 {
      GestureToggles(s, times[0]);
      assert GestureEdges(times[1..]) == [];
    } else {
      GestureCounts(s, times[0]);
      BurstToggles(Gesture(s, times[0]).next, times[1..]);
    }
  }

  /** Starting after a pause: the first column-3 event is slow, so it types
      its key; it takes eight more rapid events, nine in all, to switch the
      row. */
  lemma QuietBurstTapsThenToggles(s: DriverState, times: seq<uint32>)
    requires s.Valid() && |times| == 9
    requires Elapsed(times[0], s.lastInterruptTime) >= GESTURE_DEBOUNCE_MS
    requires Elapsed(times[0], s.lastPressTime) >= BURST_WINDOW_MS
    requires RapidBurst(s.(lastPressTime := times[0]), times[1..])
    ensures var r := Run(s, GestureEdges(times));
      && Reported(r.emitted, PRESSED) == [KEY_MAP[s.state][GESTURE_COLUMN]]
      && r.next.state != s.state && r.next.pressCounter == 0
  {
    var edges := GestureEdges(times);
    assert edges[1..] == GestureEdges(times[1..]);
    GestureSlowTaps(s, times[0]);
    var s1 := Gesture(s, times[0]).next;
    assert s1 == s.(lastPressTime := times[0], pressCounter := 0);
    BurstToggles(s1, times[1..]);
  }

  /** An accepted plain key cancels a burst in progress: seven rapid column-3
      events after it only bring the counter to 7 and toggle nothing. */
  lemma PlainKeyRestartsBurst(s: DriverState, column: Column, now: uint32, times: seq<uint32>)
    requires s.Valid() && column != GESTURE_COLUMN
    requires Elapsed(now, s.lastInterruptTime) >= PLAIN_DEBOUNCE_MS
    requires |times| == TOGGLE_ABOVE as int + 1
    requires RapidBurst(General(s, column, now).next, times)
    ensures var r := Run(s, [Edge(column, now)] + GestureEdges(times));
      && Reported(r.emitted, PRESSED) == [KEY_MAP[s.state][column]]
      && r.next.state == s.state && r.next.pressCounter == TOGGLE_ABOVE + 1
  {
    var s1 := General(s, column, now).next;
    PlainAccepted(s, column, now);
    RunAppend(s, [Edge(column, now)], GestureEdges(times));
    assert [Edge(column, now)][1..] == [];
    BurstCounts(s1, times);
    var r := Run(s, [Edge(column, now)]);
    assert r.emitted == General(s, column, now).emitted;
  }

  /** Two plain edges less than 250 ms apart type at most one key between
      them: either the first is accepted and the second then falls in its
      window, or the first is rejected. */
  lemma TwoPlainWithinWindowTypeOnce(s: DriverState, c0: Column, t0: uint32, c1: Column, t1: uint32)
    requires s.Valid() && c0 != GESTURE_COLUMN && c1 != GESTURE_COLUMN
    requires Elapsed(t1, t0) < PLAIN_DEBOUNCE_MS
    ensures |Reported(Run(s, [Edge(c0, t0), Edge(c1, t1)]).emitted, PRESSED)| <= 1
  {
    var edges := [Edge(c0, t0), Edge(c1, t1)];
    assert edges[1..] == [Edge(c1, t1)] && edges[1..][1..] == [];
    var r0 := General(s, c0, t0);
    var r1 := General(r0.next, c1, t1);
    assert Step(s, edges[0]) == r0;
    assert Step(r0.next, edges[1..][0]) == r1;
    assert Run(r1.next, edges[1..][1..]).emitted == [];
    assert Run(r0.next, edges[1..]).emitted == r1.emitted + [];
    if Elapsed(t0, s.lastInterruptTime) >= PLAIN_DEBOUNCE_MS {
      PlainAccepted(s, c0, t0);
      PlainBounceIgnored(r0.next, c1, t1);
      assert Run(s, edges).emitted == r0.emitted + (r1.emitted + []);
      assert r0.emitted + (r1.emitted + []) == r0.emitted;
    } else {
      assert Run(s, edges).emitted == r0.emitted + (r1.emitted + []);
      assert r0.emitted + (r1.emitted + []) == r1.emitted;
      if Elapsed(t1, r0.next.lastInterruptTime) >= PLAIN_DEBOUNCE_MS {
        PlainAccepted(r0.next, c1, t1);
      }
    }
  }
}
