/** The driver as it runs: the four globals, updated in place by the
    interrupt handlers, and the log of what it has sent to the input device.
    Each handler is proved to do what the corresponding function of module
    Handlers says, so the lemmas there apply to every run of the driver. */
module Driver {
  import opened CTypes
  import opened Time
  import opened Keys
  import opened Handlers

  class Keyboard {
    /** The active key-map row. */
    var state: bv16
    var pressCounter: uint16
    /** Time of the last accepted plain-column key. */
    var lastInterruptTime: uint32
    /** Time of the last column-3 event that passed its debounce. */
    var lastPressTime: uint32
    /** Every `input_report_key` and `input_sync` call so far, in order. */
    var sent: seq<InputEvent>

    /** The four globals as a value. */
    function Globals(): DriverState
      reads this
    {
      DriverState(state, pressCounter, lastInterruptTime, lastPressTime)
    }

    ghost predicate Valid()
      reads this
    {
      Globals().Valid()
    }

    /** The static initialisers, before any interrupt: everything 0, nothing sent. */
    constructor ()
      ensures Valid()
      ensures Globals() == INITIAL && sent == []
    {
      state, pressCounter := 0, 0;
      lastInterruptTime, lastPressTime := 0, 0;
      sent := [];
    }

    /** `sendKey`: report the key of `row` and `column` pressed, sync,
        report it released, sync. */
    method SendKey(row: bv16, column: Column)
      requires row < 2
      modifies this`sent
      ensures sent == old(sent) + Tap(Lookup(row, column))
    {
      var code := Lookup(row, column);
      sent := sent + [KeyReport(code, PRESSED)];
      sent := sent + [Sync];
      sent := sent + [KeyReport(code, RELEASED)];
      sent := sent + [Sync];
    }

    /** `InterruptHandler_general` for an edge on `column` at time `now`. */
    method InterruptHandlerGeneral(column: Column, now: uint32)
      requires Valid()
      modifies this
      ensures Valid()
      ensures Globals() == General(old(Globals()), column, now).next
      ensures sent == old(sent) + General(old(Globals()), column, now).emitted
    {
      if Elapsed(now, lastInterruptTime) < PLAIN_DEBOUNCE_MS {
        return;
      }
      SendKey(state, column);
      lastInterruptTime := now;
      pressCounter := 0;
    }

    /** `InterruptHandler_0`: the general handler for column 0. */
    method InterruptHandler0(now: uint32)
      requires Valid()
      modifies this
      ensures Valid()
      ensures Globals() == Step(old(Globals()), Edge(0, now)).next
      ensures sent == old(sent) + Step(old(Globals()), Edge(0, now)).emitted
    {
      InterruptHandlerGeneral(0, now);
    }

    /** `InterruptHandler_1`: the general handler for column 1. */
    method InterruptHandler1(now: uint32)
      requires Valid()
      modifies this
      ensures Valid()
      ensures Globals() == Step(old(Globals()), Edge(1, now)).next
      ensures sent == old(sent) + Step(old(Globals()), Edge(1, now)).emitted
    {
      InterruptHandlerGeneral(1, now);
    }

    /** `InterruptHandler_2`: the general handler for column 2. */
    method InterruptHandler2(now: uint32)
      requires Valid()
      modifies this
      ensures Valid()
      ensures Globals() == Step(old(Globals()), Edge(2, now)).next
      ensures sent == old(sent) + Step(old(Globals()), Edge(2, now)).emitted
    {
      InterruptHandlerGeneral(2, now);
    }

    /** `InterruptHandler_3`: the gesture handler of column 3. */
    method InterruptHandler3(now: uint32)
      requires Valid()
      modifies this
      ensures Valid()
      ensures Globals() == Gesture(old(Globals()), now).next
      ensures Globals() == Step(old(Globals()), Edge(GESTURE_COLUMN, now)).next
      ensures sent == old(sent) + Gesture(old(Globals()), now).emitted
    {
      if Elapsed(now, lastInterruptTime) < GESTURE_DEBOUNCE_MS {
        return;
      }
      if Elapsed(now, lastPressTime) < BURST_WINDOW_MS {
        if pressCounter > TOGGLE_ABOVE {
          state := state ^ 1;
          pressCounter := 0;
          lastPressTime := now;
          return;
        }
        pressCounter := Increment(pressCounter);
      } else {
        pressCounter := 0;
        SendKey(state, GESTURE_COLUMN);
      }
      lastPressTime := now;
    }

    /** The kernel invoking the handler registered for the edge's column
        (`InterruptHandlerMap` in `keyboard_init`). */
    method Interrupt(e: Edge)
      requires Valid()
      modifies this
      ensures Valid()
      ensures Globals() == Step(old(Globals()), e).next
      ensures sent == old(sent) + Step(old(Globals()), e).emitted
    {
      match e.column
      case 0 => InterruptHandler0(e.now);
      case 1 => InterruptHandler1(e.now);
      case 2 => InterruptHandler2(e.now);
      case 3 => InterruptHandler3(e.now);
    }
  }
}
