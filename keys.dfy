/** The fixed 2x4 key map and the key events the driver sends to the kernel's
    input device. Key codes are kept abstract: only their identity matters. */
module Keys {
  import opened CTypes

  /** The eight key codes of the map (`KEY_A` ... `KEY_SPACE`), all distinct. */
  datatype KeyCode = KeyA | KeyB | KeyC | KeyEnter | KeyX | KeyY | KeyZ | KeySpace

  const ROWS: int := 2
  const COLUMNS: int := 4

  /** A key-map column, i.e. one of the four GPIO inputs. */
  type Column = c: uint16 | c < 4

  /** Row 0 is the key set of state 0, row 1 that of state 1. */
  const KEY_MAP: seq<seq<KeyCode>> :=
    [[KeyA, KeyB, KeyC, KeyEnter],
     [KeyX, KeyY, KeyZ, KeySpace]]

  /** `keyMap[row][column]`; a row outside the table would be an
      out-of-bounds read in C. */
  function Lookup(row: bv16, column: Column): KeyCode
    requires row < 2
  {
    KEY_MAP[row as int][column as int]
  }

  /** Every (row, column) pair names its own key: the table has no repeats,
      so the key that was sent tells which input and which state sent it. */
  lemma LookupInjective(row0: bv16, column0: Column, row1: bv16, column1: Column)
    requires row0 < 2 && row1 < 2
    ensures Lookup(row0, column0) == Lookup(row1, column1) <==> row0 == row1 && column0 == column1
  {
  }

  /** What the driver hands to the input device: `input_report_key(input,
      code, value)` with value 1 (pressed) or 0 (released), and
      `input_sync(input)`. */
  datatype InputEvent = KeyReport(code: KeyCode, value: nat) | Sync

  const PRESSED: nat := 1
  const RELEASED: nat := 0

  /** The four calls `sendKey` makes for one code: press, sync, release, sync. */
  function Tap(code: KeyCode): seq<InputEvent>
  {
    [KeyReport(code, PRESSED), Sync, KeyReport(code, RELEASED), Sync]
  }

  /** One tap per code, in order. */
  function Taps(codes: seq<KeyCode>): seq<InputEvent>
  {
    if codes == [] then [] else Tap(codes[0]) + Taps(codes[1..])
  }

  /** The codes reported with the given value, in order of the log. */
  function Reported(log: seq<InputEvent>, value: nat): seq<KeyCode>
  {
    if log == [] then []
    else (if log[0].KeyReport? && log[0].value == value then [log[0].code] else [])
         + Reported(log[1..], value)
  }

  lemma {:induction false} ReportedAppend(a: seq<InputEvent>, b: seq<InputEvent>, value: nat)
    ensures Reported(a + b, value) == Reported(a, value) + Reported(b, value)
  {
    if a == [] {
      assert a + b == b;
    } else {
      assert (a + b)[1..] == a[1..] + b;
      ReportedAppend(a[1..], b, value);
    }
  }

  lemma {:induction false} TapsAppend(a: seq<KeyCode>, b: seq<KeyCode>)
    ensures Taps(a + b) == Taps(a) + Taps(b)
  {
    if a == [] {
      assert a + b == b;
    } else {
      assert (a + b)[1..] == a[1..] + b;
      TapsAppend(a[1..], b);
    }
  }

  /** A tap presses and releases its code and no other. */
  lemma TapReports(code: KeyCode)
    ensures Reported(Tap(code), PRESSED) == [code]
    ensures Reported(Tap(code), RELEASED) == [code]
  {
    var t := Tap(code);
    assert t[1..] == [Sync, KeyReport(code, RELEASED), Sync];
    assert t[1..][1..] == [KeyReport(code, RELEASED), Sync];
    assert t[1..][1..][1..] == [Sync];
    assert Reported(t[1..][1..][1..], PRESSED) == [] == Reported(t[1..][1..][1..], RELEASED);
    assert Reported(t[1..][1..], PRESSED) == [];
    assert Reported(t[1..][1..], RELEASED) == [code];
  }

  /** Reading the presses, or the releases, back out of a sequence of taps
      gives the tapped codes. */
  lemma {:induction false} TapsRoundTrip(codes: seq<KeyCode>)
    ensures Reported(Taps(codes), PRESSED) == codes
    ensures Reported(Taps(codes), RELEASED) == codes
  {
    if codes != [] {
      TapsRoundTrip(codes[1..]);
      TapReports(codes[0]);
      ReportedAppend(Tap(codes[0]), Taps(codes[1..]), PRESSED);
      ReportedAppend(Tap(codes[0]), Taps(codes[1..]), RELEASED);
    }
  }
}
