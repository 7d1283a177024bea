/** Concrete runs of the driver from its initial globals. */
module Scenarios {
  import opened CTypes
  import opened Time
  import opened Keys
  import opened Handlers

  /** Column 0 at 1000 ms and 1100 ms: the first types `KEY_A`, the second
      comes 100 ms later and is dropped. */
  lemma PlainBounceScenario()
    ensures Run(INITIAL, [Edge(0, 1000), Edge(0, 1100)]).emitted == Tap(KeyA)
  {
    var edges := [Edge(0, 1000), Edge(0, 1100)];
    var r0 := General(INITIAL, 0, 1000);
    assert r0 == Reaction(INITIAL.(lastInterruptTime := 1000), Tap(KeyA));
    assert edges[1..] == [Edge(0, 1100)] && edges[1..][1..] == [];
    assert Run(r0.next, edges[1..]).emitted == [];
  }

  /** The debounce is against the initial `lastInterruptTime` of 0 as well:
      a key at time 0 (modulo 2^32) right after loading is dropped. */
  lemma FirstEdgeAtZeroDropped()
    ensures Run(INITIAL, [Edge(0, 0)]).emitted == []
  {
    assert [Edge(0, 0)][1..] == [];
  }

  /** The clock wrapping between two keys does not defeat the debounce:
      a key 200 ms after one at 2^32 - 100 ms is dropped. */
  lemma DebounceAcrossWrap()
    ensures var s := INITIAL.(lastInterruptTime := 0xFFFF_FF9C);
      General(s, 1, 100) == Reaction(s, [])
  {
    assert Elapsed(100, 0xFFFF_FF9C) == 200;
  }

  /** Column 3 at 1000 ms and 1500 ms: two separate taps of `KEY_ENTER`,
      the counter at 0 after each. */
  lemma SlowGesturesTap()
    ensures var r := Run(INITIAL, GestureEdges([1000, 1500]));
      r.emitted == Tap(KeyEnter) + Tap(KeyEnter) && r.next.pressCounter == 0
      && r.next.state == 0
  {
    var times: seq<uint32> := [1000, 1500];
    var edges := GestureEdges(times);
    assert edges[1..] == GestureEdges(times[1..]);
    assert times[1..][1..] == [];
    var r0 := Gesture(INITIAL, 1000);
    assert r0 == Reaction(INITIAL.(lastPressTime := 1000), Tap(KeyEnter));
    var r1 := Gesture(r0.next, 1500);
    assert r1 == Reaction(INITIAL.(lastPressTime := 1500), Tap(KeyEnter));
    assert Run(r0.next, GestureEdges(times[1..])).emitted == r1.emitted + [];
  }

  /** Column 3 every 100 ms from 1000 ms to 1800 ms: the first event comes
      after a pause and types `KEY_ENTER`; the next eight form a burst and
      the last of them switches to row 1. */
  lemma NineGesturesSwitchRow()
    ensures var r := Run(INITIAL, GestureEdges([1000, 1100, 1200, 1300, 1400, 1500, 1600, 1700, 1800]));
      Reported(r.emitted, PRESSED) == [KeyEnter] && r.next.state == 1 && r.next.pressCounter == 0
  {
    var times: seq<uint32> := [1000, 1100, 1200, 1300, 1400, 1500, 1600, 1700, 1800];
    var s1 := INITIAL.(lastPressTime := 1000);
    assert RapidBurst(s1, times[1..]) by {
      assert times[1..] == [1100, 1200, 1300, 1400, 1500, 1600, 1700, 1800];
      assert RapidAfter(0, 1700, [1800]);
      assert RapidAfter(0, 1600, [1700, 1800]);
      assert RapidAfter(0, 1500, [1600, 1700, 1800]);
      assert RapidAfter(0, 1400, [1500, 1600, 1700, 1800]);
      assert RapidAfter(0, 1300, [1400, 1500, 1600, 1700, 1800]);
      assert RapidAfter(0, 1200, [1300, 1400, 1500, 1600, 1700, 1800]);
      assert RapidAfter(0, 1100, [1200, 1300, 1400, 1500, 1600, 1700, 1800]);
    }
    QuietBurstTapsThenToggles(INITIAL, times);
  }
}
