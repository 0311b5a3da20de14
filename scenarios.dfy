/** The library's unit-test scenarios as client methods. Each one starts
    from an arbitrary register value (and, where the scenario calls
    `random`, an arbitrary random choice) and promises what the scenario
    asserts about the LEDs afterwards.
 */
module Scenarios {
  import opened Leds
  import opened Controller

  /** The left, middle and right LED of `bl`, as a scenario reads them. */
  method Lights(bl: BlinkenLights) returns (left: Result<bool>, middle: Result<bool>, right: Result<bool>)
    ensures bl.closed ==> left.Err? && middle.Err? && right.Err?
    ensures !bl.closed ==> left == Ok(DigitalOf(bl.leds) & LED_LEFT != 0)
    ensures !bl.closed ==> middle == Ok(DigitalOf(bl.leds) & LED_MIDDLE != 0)
    ensures !bl.closed ==> right == Ok(DigitalOf(bl.leds) & LED_RIGHT != 0)
  {
    left := bl.Left();
    middle := bl.Middle();
    right := bl.Right();
  }

  /** Closing reports the tty closed, and a flash afterwards fails. */
  method CloseThenFlash(tty: string, current: Byte) returns (before: bool, after: bool, flash: Outcome)
    ensures !before && after && flash == Fail(ClosedStream)
  {
    var bl := new BlinkenLights(tty, current);
    before := bl.IsClosed();
    var _ := bl.Close();
    after := bl.IsClosed();
    flash := bl.Flash();
  }

  /** `open` without a block gives an open controller that closes once. */
  method OpenThenClose(tty: string, current: Byte) returns (first: Outcome, second: Outcome)
    ensures first == Pass && second == Fail(ClosedStream)
  {
    var bl := BlinkenLights.Open(tty, current);
    first := bl.Close();
    second := bl.Close();
  }

  /** After `random` and `reset`, the three LEDs read as they did at creation. */
  method RandomThenReset(tty: string, current: Byte, choice: int)
    returns (before: (Result<bool>, Result<bool>, Result<bool>), after: (Result<bool>, Result<bool>, Result<bool>))
    requires 0 <= choice <= 7
    ensures before.0.Ok? && after == before
  {
    var bl := new BlinkenLights(tty, current);
    var l, m, r := Lights(bl);
    before := (l, m, r);
    var _ := bl.Random(choice);
    var _ := bl.Reset();
    l, m, r := Lights(bl);
    after := (l, m, r);
  }

  /** `off` after `random` leaves all LEDs off. */
  method OffAfterRandom(tty: string, current: Byte, choice: int) returns (lights: (Result<bool>, Result<bool>, Result<bool>))
    requires 0 <= choice <= 7
    ensures lights == (Ok(false), Ok(false), Ok(false))
  {
    var bl := new BlinkenLights(tty, current);
    var _ := bl.Random(choice);
    var _ := bl.Off();
    var left, middle, right := Lights(bl);
    lights := (left, middle, right);
  }

  /** `on` after `random` leaves all LEDs on. */
  method OnAfterRandom(tty: string, current: Byte, choice: int) returns (lights: (Result<bool>, Result<bool>, Result<bool>))
    requires 0 <= choice <= 7
    ensures lights == (Ok(true), Ok(true), Ok(true))
  {
    var bl := new BlinkenLights(tty, current);
    var _ := bl.Random(choice);
    var _ := bl.On();
    var left, middle, right := Lights(bl);
    lights := (left, middle, right);
  }

  /** `flash` after `random` leaves all LEDs off. */
  method FlashAfterRandom(tty: string, current: Byte, choice: int) returns (lights: (Result<bool>, Result<bool>, Result<bool>))
    requires 0 <= choice <= 7
    ensures lights == (Ok(false), Ok(false), Ok(false))
  {
    var bl := new BlinkenLights(tty, current);
    var _ := bl.Random(choice);
    var _ := bl.Flash();
    var left, middle, right := Lights(bl);
    lights := (left, middle, right);
  }

  /** `digital = i` reads back as `i % 8` for i in 0..8. */
  method DigitalReadsBack(tty: string, current: Byte, choice: int) returns (read: seq<Result<Byte>>)
    requires 0 <= choice <= 7
    ensures |read| == 9
    ensures forall i :: 0 <= i < 9 ==> read[i] == Ok((i % 8) as Byte)
  {
    var bl := new BlinkenLights(tty, current);
    var _ := bl.Random(choice);
    read := [];
    for i := 0 to 9
      invariant !bl.closed
      invariant |read| == i
      invariant forall j :: 0 <= j < i ==> read[j] == Ok((j % 8) as Byte)
    {
      var _ := bl.SetDigital(i);
      var d := bl.Digital();
      read := read + [d];
    }
  }

  /** `left_to_right` after `random` leaves only the right LED lit. */
  method LeftToRightAfterRandom(tty: string, current: Byte, choice: int) returns (lights: (Result<bool>, Result<bool>, Result<bool>))
    requires 0 <= choice <= 7
    ensures lights == (Ok(false), Ok(false), Ok(true))
  {
    var bl := new BlinkenLights(tty, current);
    var _ := bl.Random(choice);
    var _ := bl.LeftToRight();
    var left, middle, right := Lights(bl);
    lights := (left, middle, right);
  }

  /** `right_to_left` after `random` leaves only the left LED lit. */
  method RightToLeftAfterRandom(tty: string, current: Byte, choice: int) returns (lights: (Result<bool>, Result<bool>, Result<bool>))
    requires 0 <= choice <= 7
    ensures lights == (Ok(true), Ok(false), Ok(false))
  {
    var bl := new BlinkenLights(tty, current);
    var _ := bl.Random(choice);
    var _ := bl.RightToLeft();
    var left, middle, right := Lights(bl);
    lights := (left, middle, right);
  }

  /** `circle` after `random` leaves only the left LED lit. */
  method CircleAfterRandom(tty: string, current: Byte, choice: int) returns (lights: (Result<bool>, Result<bool>, Result<bool>))
    requires 0 <= choice <= 7
    ensures lights == (Ok(true), Ok(false), Ok(false))
  {
    var bl := new BlinkenLights(tty, current);
    var _ := bl.Random(choice);
    var _ := bl.Circle();
    var left, middle, right := Lights(bl);
    lights := (left, middle, right);
  }

  /** `reverse_circle` after `random` leaves only the right LED lit. */
  method ReverseCircleAfterRandom(tty: string, current: Byte, choice: int) returns (lights: (Result<bool>, Result<bool>, Result<bool>))
    requires 0 <= choice <= 7
    ensures lights == (Ok(false), Ok(false), Ok(true))
  {
    var bl := new BlinkenLights(tty, current);
    var _ := bl.Random(choice);
    var _ := bl.ReverseCircle();
    var left, middle, right := Lights(bl);
    lights := (left, middle, right);
  }

  /** `converge` after `random` leaves only the middle LED lit. */
  method ConvergeAfterRandom(tty: string, current: Byte, choice: int) returns (lights: (Result<bool>, Result<bool>, Result<bool>))
    requires 0 <= choice <= 7
    ensures lights == (Ok(false), Ok(true), Ok(false))
  {
    var bl := new BlinkenLights(tty, current);
    var _ := bl.Random(choice);
    var _ := bl.Converge();
    var left, middle, right := Lights(bl);
    lights := (left, middle, right);
  }

  /** `diverge` after `random` leaves the outer LEDs lit. */
  method DivergeAfterRandom(tty: string, current: Byte, choice: int) returns (lights: (Result<bool>, Result<bool>, Result<bool>))
    requires 0 <= choice <= 7
    ensures lights == (Ok(true), Ok(false), Ok(true))
  {
    var bl := new BlinkenLights(tty, current);
    var _ := bl.Random(choice);
    var _ := bl.Diverge();
    var left, middle, right := Lights(bl);
    lights := (left, middle, right);
  }

  /** After `random`, `left = false` reads back false, `left = true` reads
      back true, and each of two toggles inverts it. */
  method LeftSetAndToggle(tty: string, current: Byte, choice: int) returns (seen: seq<Result<bool>>)
    requires 0 <= choice <= 7
    ensures seen == [Ok(false), Ok(true), Ok(false), Ok(true)]
  {
    var bl := new BlinkenLights(tty, current);
    var _ := bl.Random(choice);
    var _ := bl.SetLeft(false);
    var a := bl.Left();
    var _ := bl.SetLeft(true);
    var b := bl.Left();
    var _ := bl.ToggleLeft();
    var c := bl.Left();
    var _ := bl.ToggleLeft();
    var d := bl.Left();
    seen := [a, b, c, d];
  }

  /** After `random`, `middle = false` reads back false, `middle = true` reads
      back true, and each of two toggles inverts it. */
  method MiddleSetAndToggle(tty: string, current: Byte, choice: int) returns (seen: seq<Result<bool>>)
    requires 0 <= choice <= 7
    ensures seen == [Ok(false), Ok(true), Ok(false), Ok(true)]
  {
    var bl := new BlinkenLights(tty, current);
    var _ := bl.Random(choice);
    var _ := bl.SetMiddle(false);
    var a := bl.Middle();
    var _ := bl.SetMiddle(true);
    var b := bl.Middle();
    var _ := bl.ToggleMiddle();
    var c := bl.Middle();
    var _ := bl.ToggleMiddle();
    var d := bl.Middle();
    seen := [a, b, c, d];
  }

  /** After `random`, `right = false` reads back false, `right = true` reads
      back true, and each of two toggles inverts it. */
  method RightSetAndToggle(tty: string, current: Byte, choice: int) returns (seen: seq<Result<bool>>)
    requires 0 <= choice <= 7
    ensures seen == [Ok(false), Ok(true), Ok(false), Ok(true)]
  {
    var bl := new BlinkenLights(tty, current);
    var _ := bl.Random(choice);
    var _ := bl.SetRight(false);
    var a := bl.Right();
    var _ := bl.SetRight(true);
    var b := bl.Right();
    var _ := bl.ToggleRight();
    var c := bl.Right();
    var _ := bl.ToggleRight();
    var d := bl.Right();
    seen := [a, b, c, d];
  }

  /** After `random`, `num = false` reads back false, `num = true` reads
      back true, and each of two toggles inverts it. */
  method NumSetAndToggle(tty: string, current: Byte, choice: int) returns (seen: seq<Result<bool>>)
    requires 0 <= choice <= 7
    ensures seen == [Ok(false), Ok(true), Ok(false), Ok(true)]
  {
    var bl := new BlinkenLights(tty, current);
    var _ := bl.Random(choice);
    var _ := bl.SetNum(false);
    var a := bl.Num();
    var _ := bl.SetNum(true);
    var b := bl.Num();
    var _ := bl.ToggleNum();
    var c := bl.Num();
    var _ := bl.ToggleNum();
    var d := bl.Num();
    seen := [a, b, c, d];
  }

  /** After `random`, `cap = false` reads back false, `cap = true` reads
      back true, and each of two toggles inverts it. */
  method CapSetAndToggle(tty: string, current: Byte, choice: int) returns (seen: seq<Result<bool>>)
    requires 0 <= choice <= 7
    ensures seen == [Ok(false), Ok(true), Ok(false), Ok(true)]
  {
    var bl := new BlinkenLights(tty, current);
    var _ := bl.Random(choice);
    var _ := bl.SetCap(false);
    var a := bl.Cap();
    var _ := bl.SetCap(true);
    var b := bl.Cap();
    var _ := bl.ToggleCap();
    var c := bl.Cap();
    var _ := bl.ToggleCap();
    var d := bl.Cap();
    seen := [a, b, c, d];
  }

  /** After `random`, `scr = false` reads back false, `scr = true` reads
      back true, and each of two toggles inverts it. */
  method ScrSetAndToggle(tty: string, current: Byte, choice: int) returns (seen: seq<Result<bool>>)
    requires 0 <= choice <= 7
    ensures seen == [Ok(false), Ok(true), Ok(false), Ok(true)]
  {
    var bl := new BlinkenLights(tty, current);
    var _ := bl.Random(choice);
    var _ := bl.SetScr(false);
    var a := bl.Scr();
    var _ := bl.SetScr(true);
    var b := bl.Scr();
    var _ := bl.ToggleScr();
    var c := bl.Scr();
    var _ := bl.ToggleScr();
    var d := bl.Scr();
    seen := [a, b, c, d];
  }

  /** Toggling Scr twice restores the register exactly. */
  method ScrToggledTwice(bl: BlinkenLights) returns (r: Outcome)
    modifies bl
    ensures bl.closed == old(bl.closed)
    ensures old(bl.closed) ==> r == Fail(ClosedStream) && bl.leds == old(bl.leds)
    ensures !old(bl.closed) ==> r == Pass && bl.leds == old(bl.leds)
  {
    r := bl.ToggleScr();
    if r.Pass? {
      r := bl.ToggleScr();
    }
  }

  /** Toggling Cap twice restores the register exactly. */
  method CapToggledTwice(bl: BlinkenLights) returns (r: Outcome)
    modifies bl
    ensures bl.closed == old(bl.closed)
    ensures old(bl.closed) ==> r == Fail(ClosedStream) && bl.leds == old(bl.leds)
    ensures !old(bl.closed) ==> r == Pass && bl.leds == old(bl.leds)
  {
    r := bl.ToggleCap();
    if r.Pass? {
      r := bl.ToggleCap();
    }
  }

  /** Toggling Num twice restores the register exactly. */
  method NumToggledTwice(bl: BlinkenLights) returns (r: Outcome)
    modifies bl
    ensures bl.closed == old(bl.closed)
    ensures old(bl.closed) ==> r == Fail(ClosedStream) && bl.leds == old(bl.leds)
    ensures !old(bl.closed) ==> r == Pass && bl.leds == old(bl.leds)
  {
    r := bl.ToggleNum();
    if r.Pass? {
      r := bl.ToggleNum();
    }
  }

  /** Toggling Left twice restores the three LEDs; the register bits
      above them, which `digital=` never writes, end up cleared. */
  method LeftToggledTwice(bl: BlinkenLights) returns (r: Outcome)
    modifies bl
    ensures bl.closed == old(bl.closed)
    ensures old(bl.closed) ==> r == Fail(ClosedStream) && bl.leds == old(bl.leds)
    ensures !old(bl.closed) ==> r == Pass && bl.leds == old(bl.leds) & LED_ALL
  {
    r := bl.ToggleLeft();
    if r.Pass? {
      r := bl.ToggleLeft();
    }
  }

  /** Toggling Middle twice restores the three LEDs; the register bits
      above them, which `digital=` never writes, end up cleared. */
  method MiddleToggledTwice(bl: BlinkenLights) returns (r: Outcome)
    modifies bl
    ensures bl.closed == old(bl.closed)
    ensures old(bl.closed) ==> r == Fail(ClosedStream) && bl.leds == old(bl.leds)
    ensures !old(bl.closed) ==> r == Pass && bl.leds == old(bl.leds) & LED_ALL
  {
    r := bl.ToggleMiddle();
    if r.Pass? {
      r := bl.ToggleMiddle();
    }
  }

  /** Toggling Right twice restores the three LEDs; the register bits
      above them, which `digital=` never writes, end up cleared. */
  method RightToggledTwice(bl: BlinkenLights) returns (r: Outcome)
    modifies bl
    ensures bl.closed == old(bl.closed)
    ensures old(bl.closed) ==> r == Fail(ClosedStream) && bl.leds == old(bl.leds)
    ensures !old(bl.closed) ==> r == Pass && bl.leds == old(bl.leds) & LED_ALL
  {
    r := bl.ToggleRight();
    if r.Pass? {
      r := bl.ToggleRight();
    }
  }
}
