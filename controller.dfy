/** The LED controller: an open console tty whose LED register is read and
    written through one primitive pair (`Get`, `Set`), and the convenience
    operations built on them.

    The register is a field here. The device primitives behind it (the
    KDGETLED/KDSETLED ioctls, or the lock-key states on the other platform)
    and the pauses after each write are not modelled.
 */
module Controller {
  import opened Leds

  /** The error raised when a closed tty is used. */
  datatype IOError = ClosedStream

  datatype Result<T> = Ok(value: T) | Err(error: IOError)

  /** The outcome of an operation that returns the controller itself. */
  datatype Outcome = Pass | Fail(error: IOError)

  function ToOutcome<T>(r: Result<T>): (o: Outcome)
    ensures o.Pass? <==> r.Ok?
    ensures r.Err? ==> o == Fail(r.error)
  {
    match r
    case Ok(_) => Pass
    case Err(e) => Fail(e)
  }

  /** The register values `digital=` writes for each of `steps`, in order. */
  function Written(steps: seq<Byte>): (w: seq<Byte>)
    ensures |w| == |steps|
    ensures forall k :: 0 <= k < |steps| ==> w[k] == NativeOf(steps[k])
  {
    if steps == [] then [] else Written(steps[..|steps| - 1]) + [NativeOf(steps[|steps| - 1])]
  }

  lemma WrittenStep(steps: seq<Byte>, k: nat)
    requires k < |steps|
    ensures Written(steps[..k + 1]) == Written(steps[..k]) + [NativeOf(steps[k])]
  {
  }

  class BlinkenLights {
    /** The path of the console tty. */
    const tty: string
    /** The LED register of the console, in native order. */
    var leds: Byte
    /** The register value read when the controller was created. */
    const oldLeds: Byte
    /** Whether the tty has been closed. */
    var closed: bool
    /** Every value written to the register so far, oldest first. */
    ghost var shown: seq<Byte>

    /** Opens `path`; `current` is what the register holds at that moment. */
    constructor (path: string, current: Byte)
      ensures tty == path && leds == current && oldLeds == current
      ensures !closed && shown == []
    {
      tty := path;
      leds := current;
      oldLeds := current;
      closed := false;
      shown := [];
    }

    /** `BlinkenLights.open` without a block: a new open controller. */
    static method Open(path: string, current: Byte) returns (bl: BlinkenLights)
      ensures fresh(bl)
      ensures bl.tty == path && bl.leds == current && bl.oldLeds == current
      ensures !bl.closed && bl.shown == []
    {
      bl := new BlinkenLights(path, current);
    }

    method IsClosed() returns (b: bool)
      ensures b <==> closed
    {
      b := closed;
    }

    /** Reads the register. */
    method Get() returns (r: Result<Byte>)
      ensures closed ==> r == Err(ClosedStream)
      ensures !closed ==> r == Ok(leds)
    {
      if closed {
        r := Err(ClosedStream);
      } else {
        r := Ok(leds);
      }
    }

    /** Writes the register and returns the value written. */
    method Set(number: Byte) returns (r: Result<Byte>)
      modifies this`leds, this`shown
      ensures closed ==> r == Err(ClosedStream) && leds == old(leds) && shown == old(shown)
      ensures !closed ==> r == Ok(number) && leds == number && shown == old(shown) + [number]
    {
      if closed {
        r := Err(ClosedStream);
      } else {
        leds := number;
        shown := shown + [number];
        r := Ok(number);
      }
    }

    /** Restores the register to its value at creation. */
    method Reset() returns (r: Outcome)
      modifies this`leds, this`shown
      ensures closed ==> r == Fail(ClosedStream) && leds == old(leds) && shown == old(shown)
      ensures !closed ==> r == Pass && leds == oldLeds && shown == old(shown) + [oldLeds]
    {
      var w := Set(oldLeds);
      r := ToOutcome(w);
    }

    /** Resets the LEDs, then closes the tty. Closing twice fails, because
        the reset of the second close cannot write. */
    method Close() returns (r: Outcome)
      modifies this`leds, this`shown, this`closed
      ensures closed
      ensures old(closed) ==> r == Fail(ClosedStream) && leds == old(leds) && shown == old(shown)
      ensures !old(closed) ==> r == Pass && leds == oldLeds && shown == old(shown) + [oldLeds]
    {
      r := Reset();
      if r.Pass? {
        closed := true;
      }
    }

    /** Switches all LEDs off. */
    method Off() returns (r: Outcome)
      modifies this`leds, this`shown
      ensures closed ==> r == Fail(ClosedStream) && leds == old(leds) && shown == old(shown)
      ensures !closed ==> r == Pass && leds == LED_NONE && DigitalOf(leds) == LED_NONE && shown == old(shown) + [LED_NONE]
    {
      var w := Set(LED_NONE);
      r := ToOutcome(w);
    }

    /** Switches all LEDs on. */
    method On() returns (r: Outcome)
      modifies this`leds, this`shown
      ensures closed ==> r == Fail(ClosedStream) && leds == old(leds) && shown == old(shown)
      ensures !closed ==> r == Pass && leds == LED_ALL && DigitalOf(leds) == LED_ALL && shown == old(shown) + [LED_ALL]
    {
      var w := Set(LED_ALL);
      r := ToOutcome(w);
    }

    /** Switches all LEDs on, then off. */
    method Flash() returns (r: Outcome)
      modifies this`leds, this`shown
      ensures closed ==> r == Fail(ClosedStream) && leds == old(leds) && shown == old(shown)
      ensures !closed ==> r == Pass && leds == LED_NONE && DigitalOf(leds) == LED_NONE
      ensures !closed ==> shown == old(shown) + [LED_ALL, LED_NONE]
    {
      r := On();
      if r.Pass? {
        r := Off();
      }
    }

    /** `digital=`: writes `number mod 8` in digital order. */
    method SetDigital(number: int) returns (r: Result<Byte>)
      modifies this`leds, this`shown
      ensures closed ==> r == Err(ClosedStream) && leds == old(leds) && shown == old(shown)
      ensures !closed ==> r.Ok? && leds == NativeOf(Reduce(number)) && shown == old(shown) + [leds]
      ensures !closed ==> DigitalOf(leds) == Reduce(number)
    {
      var n := Reduce(number);
      var setting: Byte := 0;
      for i := 0 to 3
        invariant setting == NativeUpTo(n, i)
      {
        if Bit(n, i) {
          setting := setting | NativeWeight(i);
        }
      }
      DigitalOfNativeOf(n);
      r := Set(setting);
    }

    /** `digital`: reads the register in digital order. */
    method Digital() returns (r: Result<Byte>)
      ensures closed ==> r == Err(ClosedStream)
      ensures !closed ==> r.Ok? && r.value == DigitalOf(leds) && r.value <= LED_ALL
    {
      var got := Get();
      match got
      case Err(e) =>
        r := Err(e);
      case Ok(setting) =>
        var result: Byte := 0;
        for i := 3 downto 0
          invariant result == DigitalDownFrom(setting, 3 - i)
        {
          if Bit(setting, i) {
            result := result | DigitalWeight(i);
          }
        }
        r := Ok(result);
    }

    /** Writes each of `steps` in digital order, stopping at the first failure. */
    method Play(steps: seq<Byte>) returns (r: Outcome)
      requires steps != []
      requires forall k :: 0 <= k < |steps| ==> steps[k] <= LED_ALL
      modifies this`leds, this`shown
      ensures closed ==> r == Fail(ClosedStream) && leds == old(leds) && shown == old(shown)
      ensures !closed ==> r == Pass && leds == NativeOf(steps[|steps| - 1]) && shown == old(shown) + Written(steps)
    {
      var k := 0;
      while k < |steps|
        invariant 0 <= k <= |steps|
        invariant closed ==> k == 0
        invariant k == 0 ==> leds == old(leds) && shown == old(shown)
        invariant k > 0 ==> leds == NativeOf(steps[k - 1])
        invariant shown == old(shown) + Written(steps[..k])
      {
        ReduceDigital(steps[k]);
        var w := SetDigital(steps[k] as int);
        if w.Err? {
          return Fail(w.error);
        }
        WrittenStep(steps, k);
        k := k + 1;
      }
      assert steps[..k] == steps;
      r := Pass;
    }

    /** Lights the left, the middle and the right LED in turn. */
    method LeftToRight() returns (r: Outcome)
      modifies this`leds, this`shown
      ensures closed ==> r == Fail(ClosedStream) && leds == old(leds) && shown == old(shown)
      ensures !closed ==> r == Pass && leds == LED_SCR && DigitalOf(leds) == LED_RIGHT
      ensures !closed ==> shown == old(shown) + [LED_NUM, LED_CAP, LED_SCR]
    {
      r := Play([LED_LEFT, LED_MIDDLE, LED_RIGHT]);
    }

    /** Lights the right, the middle and the left LED in turn. */
    method RightToLeft() returns (r: Outcome)
      modifies this`leds, this`shown
      ensures closed ==> r == Fail(ClosedStream) && leds == old(leds) && shown == old(shown)
      ensures !closed ==> r == Pass && leds == LED_NUM && DigitalOf(leds) == LED_LEFT
      ensures !closed ==> shown == old(shown) + [LED_SCR, LED_CAP, LED_NUM]
    {
      r := Play([LED_RIGHT, LED_MIDDLE, LED_LEFT]);
    }

    /** Sweeps from left to right, then back from right to left. */
    method Circle() returns (r: Outcome)
      modifies this`leds, this`shown
      ensures closed ==> r == Fail(ClosedStream) && leds == old(leds) && shown == old(shown)
      ensures !closed ==> r == Pass && leds == LED_NUM && DigitalOf(leds) == LED_LEFT
      ensures !closed ==> shown == old(shown) + [LED_NUM, LED_CAP, LED_SCR, LED_SCR, LED_CAP, LED_NUM]
    {
      r := LeftToRight();
      if r.Pass? {
        r := RightToLeft();
      }
    }

    /** Sweeps from right to left, then back from left to right. */
    method ReverseCircle() returns (r: Outcome)
      modifies this`leds, this`shown
      ensures closed ==> r == Fail(ClosedStream) && leds == old(leds) && shown == old(shown)
      ensures !closed ==> r == Pass && leds == LED_SCR && DigitalOf(leds) == LED_RIGHT
      ensures !closed ==> shown == old(shown) + [LED_SCR, LED_CAP, LED_NUM, LED_NUM, LED_CAP, LED_SCR]
    {
      r := RightToLeft();
      if r.Pass? {
        r := LeftToRight();
      }
    }

    /** Lights the outer LEDs, then the middle one. */
    method Converge() returns (r: Outcome)
      modifies this`leds, this`shown
      ensures closed ==> r == Fail(ClosedStream) && leds == old(leds) && shown == old(shown)
      ensures !closed ==> r == Pass && leds == LED_CAP && DigitalOf(leds) == LED_MIDDLE
      ensures !closed ==> shown == old(shown) + [LED_NUM | LED_SCR, LED_CAP]
    {
      r := Play([LED_LEFT | LED_RIGHT, LED_MIDDLE]);
    }

    /** Lights the middle LED, then the outer ones. */
    method Diverge() returns (r: Outcome)
      modifies this`leds, this`shown
      ensures closed ==> r == Fail(ClosedStream) && leds == old(leds) && shown == old(shown)
      ensures !closed ==> r == Pass && leds == LED_NUM | LED_SCR && DigitalOf(leds) == LED_LEFT | LED_RIGHT
      ensures !closed ==> shown == old(shown) + [LED_CAP, LED_NUM | LED_SCR]
    {
      r := Play([LED_MIDDLE, LED_LEFT | LED_RIGHT]);
    }

    /** Shows the digital value `choice`, drawn at random from 0..7 by the caller. */
    method Random(choice: int) returns (r: Outcome)
      requires 0 <= choice <= LED_ALL as int
      modifies this`leds, this`shown
      ensures closed ==> r == Fail(ClosedStream) && leds == old(leds) && shown == old(shown)
      ensures !closed ==> r == Pass && leds == NativeOf(choice as Byte) && DigitalOf(leds) as int == choice && shown == old(shown) + [leds]
    {
      var w := SetDigital(choice);
      r := ToOutcome(w);
    }

    // Native-order LEDs.

    /** Whether Scroll Lock is lit. */
    method Scr() returns (r: Result<bool>)
      ensures closed ==> r == Err(ClosedStream)
      ensures !closed ==> r == Ok(leds & LED_SCR != LED_NONE)
    {
      var got := Get();
      match got
      case Err(e) => r := Err(e);
      case Ok(v) => r := Ok(v & LED_SCR != LED_NONE);
    }

    /** Switches Scroll Lock on or off, leaving every other bit alone. */
    method SetScr(toggle: bool) returns (r: Result<Byte>)
      modifies this`leds, this`shown
      ensures closed ==> r == Err(ClosedStream) && leds == old(leds) && shown == old(shown)
      ensures !closed ==> r == Ok(leds) && (leds & LED_SCR != LED_NONE) == toggle
      ensures !closed ==> leds & !LED_SCR == old(leds) & !LED_SCR && shown == old(shown) + [leds]
    {
      var got := Get();
      match got
      case Err(e) => r := Err(e);
      case Ok(was) =>
        if toggle {
          r := Set(was | LED_SCR);
        } else {
          r := Set(was & !LED_SCR);
        }
    }

    /** Inverts Scroll Lock. */
    method ToggleScr() returns (r: Outcome)
      modifies this`leds, this`shown
      ensures closed ==> r == Fail(ClosedStream) && leds == old(leds) && shown == old(shown)
      ensures !closed ==> r == Pass && leds == old(leds) ^ LED_SCR && shown == old(shown) + [leds]
    {
      var lit := Scr();
      match lit
      case Err(e) => r := Fail(e);
      case Ok(on) =>
        var w := SetScr(!on);
        r := ToOutcome(w);
    }

    /** Whether Caps Lock is lit. */
    method Cap() returns (r: Result<bool>)
      ensures closed ==> r == Err(ClosedStream)
      ensures !closed ==> r == Ok(leds & LED_CAP != LED_NONE)
    {
      var got := Get();
      match got
      case Err(e) => r := Err(e);
      case Ok(v) => r := Ok(v & LED_CAP != LED_NONE);
    }

    /** Switches Caps Lock on or off, leaving every other bit alone. */
    method SetCap(toggle: bool) returns (r: Result<Byte>)
      modifies this`leds, this`shown
      ensures closed ==> r == Err(ClosedStream) && leds == old(leds) && shown == old(shown)
      ensures !closed ==> r == Ok(leds) && (leds & LED_CAP != LED_NONE) == toggle
      ensures !closed ==> leds & !LED_CAP == old(leds) & !LED_CAP && shown == old(shown) + [leds]
    {
      var got := Get();
      match got
      case Err(e) => r := Err(e);
      case Ok(was) =>
        if toggle {
          r := Set(was | LED_CAP);
        } else {
          r := Set(was & !LED_CAP);
        }
    }

    /** Inverts Caps Lock. */
    method ToggleCap() returns (r: Outcome)
      modifies this`leds, this`shown
      ensures closed ==> r == Fail(ClosedStream) && leds == old(leds) && shown == old(shown)
      ensures !closed ==> r == Pass && leds == old(leds) ^ LED_CAP && shown == old(shown) + [leds]
    {
      var lit := Cap();
      match lit
      case Err(e) => r := Fail(e);
      case Ok(on) =>
        var w := SetCap(!on);
        r := ToOutcome(w);
    }

    /** Whether Num Lock is lit. */
    method Num() returns (r: Result<bool>)
      ensures closed ==> r == Err(ClosedStream)
      ensures !closed ==> r == Ok(leds & LED_NUM != LED_NONE)
    {
      var got := Get();
      match got
      case Err(e) => r := Err(e);
      case Ok(v) => r := Ok(v & LED_NUM != LED_NONE);
    }

    /** Switches Num Lock on or off, leaving every other bit alone. */
    method SetNum(toggle: bool) returns (r: Result<Byte>)
      modifies this`leds, this`shown
      ensures closed ==> r == Err(ClosedStream) && leds == old(leds) && shown == old(shown)
      ensures !closed ==> r == Ok(leds) && (leds & LED_NUM != LED_NONE) == toggle
      ensures !closed ==> leds & !LED_NUM == old(leds) & !LED_NUM && shown == old(shown) + [leds]
    {
      var got := Get();
      match got
      case Err(e) => r := Err(e);
      case Ok(was) =>
        if toggle {
          r := Set(was | LED_NUM);
        } else {
          r := Set(was & !LED_NUM);
        }
    }

    /** Inverts Num Lock. */
    method ToggleNum() returns (r: Outcome)
      modifies this`leds, this`shown
      ensures closed ==> r == Fail(ClosedStream) && leds == old(leds) && shown == old(shown)
      ensures !closed ==> r == Pass && leds == old(leds) ^ LED_NUM && shown == old(shown) + [leds]
    {
      var lit := Num();
      match lit
      case Err(e) => r := Fail(e);
      case Ok(on) =>
        var w := SetNum(!on);
        r := ToOutcome(w);
    }

    // Digital-order LEDs.

    /** Whether the left LED (Num Lock) is lit. */
    method Left() returns (r: Result<bool>)
      ensures closed ==> r == Err(ClosedStream)
      ensures !closed ==> r == Ok(leds & LED_NUM != LED_NONE)
    {
      var got := Digital();
      match got
      case Err(e) => r := Err(e);
      case Ok(d) => r := Ok(d & LED_LEFT != LED_NONE);
    }

    /** Switches the left LED on or off, leaving the other two alone. */
    method SetLeft(toggle: bool) returns (r: Result<Byte>)
      modifies this`leds, this`shown
      ensures closed ==> r == Err(ClosedStream) && leds == old(leds) && shown == old(shown)
      ensures !closed ==> r.Ok? && (DigitalOf(leds) & LED_LEFT != LED_NONE) == toggle
      ensures !closed ==> DigitalOf(leds) & !LED_LEFT == DigitalOf(old(leds)) & !LED_LEFT
      ensures !closed ==> leds == (old(leds) & LED_ALL & !LED_NUM) | (if toggle then LED_NUM else LED_NONE)
      ensures !closed ==> shown == old(shown) + [leds]
    {
      var got := Digital();
      match got
      case Err(e) => r := Err(e);
      case Ok(was) =>
        var d := if toggle then was | LED_LEFT else was & !LED_LEFT;
        ChangeDigitalBit(leds, LED_LEFT, LED_NUM, toggle);
        ReduceDigital(d);
        r := SetDigital(d as int);
    }

    /** Inverts the left LED. */
    method ToggleLeft() returns (r: Outcome)
      modifies this`leds, this`shown
      ensures closed ==> r == Fail(ClosedStream) && leds == old(leds) && shown == old(shown)
      ensures !closed ==> r == Pass && DigitalOf(leds) == DigitalOf(old(leds)) ^ LED_LEFT
      ensures !closed ==> leds == (old(leds) & LED_ALL) ^ LED_NUM && shown == old(shown) + [leds]
    {
      var lit := Left();
      match lit
      case Err(e) => r := Fail(e);
      case Ok(on) =>
        var w := SetLeft(!on);
        r := ToOutcome(w);
    }

    /** Whether the middle LED (Caps Lock) is lit. */
    method Middle() returns (r: Result<bool>)
      ensures closed ==> r == Err(ClosedStream)
      ensures !closed ==> r == Ok(leds & LED_CAP != LED_NONE)
    {
      var got := Digital();
      match got
      case Err(e) => r := Err(e);
      case Ok(d) => r := Ok(d & LED_MIDDLE != LED_NONE);
    }

    /** Switches the middle LED on or off, leaving the other two alone. */
    method SetMiddle(toggle: bool) returns (r: Result<Byte>)
      modifies this`leds, this`shown
      ensures closed ==> r == Err(ClosedStream) && leds == old(leds) && shown == old(shown)
      ensures !closed ==> r.Ok? && (DigitalOf(leds) & LED_MIDDLE != LED_NONE) == toggle
      ensures !closed ==> DigitalOf(leds) & !LED_MIDDLE == DigitalOf(old(leds)) & !LED_MIDDLE
      ensures !closed ==> leds == (old(leds) & LED_ALL & !LED_CAP) | (if toggle then LED_CAP else LED_NONE)
      ensures !closed ==> shown == old(shown) + [leds]
    {
      var got := Digital();
      match got
      case Err(e) => r := Err(e);
      case Ok(was) =>
        var d := if toggle then was | LED_MIDDLE else was & !LED_MIDDLE;
        ChangeDigitalBit(leds, LED_MIDDLE, LED_CAP, toggle);
        ReduceDigital(d);
        r := SetDigital(d as int);
    }

    /** Inverts the middle LED. */
    method ToggleMiddle() returns (r: Outcome)
      modifies this`leds, this`shown
      ensures closed ==> r == Fail(ClosedStream) && leds == old(leds) && shown == old(shown)
      ensures !closed ==> r == Pass && DigitalOf(leds) == DigitalOf(old(leds)) ^ LED_MIDDLE
      ensures !closed ==> leds == (old(leds) & LED_ALL) ^ LED_CAP && shown == old(shown) + [leds]
    {
      var lit := Middle();
      match lit
      case Err(e) => r := Fail(e);
      case Ok(on) =>
        var w := SetMiddle(!on);
        r := ToOutcome(w);
    }

    /** Whether the right LED (Scroll Lock) is lit. */
    method Right() returns (r: Result<bool>)
      ensures closed ==> r == Err(ClosedStream)
      ensures !closed ==> r == Ok(leds & LED_SCR != LED_NONE)
    {
      var got := Digital();
      match got
      case Err(e) => r := Err(e);
      case Ok(d) => r := Ok(d & LED_RIGHT != LED_NONE);
    }

    /** Switches the right LED on or off, leaving the other two alone. */
    method SetRight(toggle: bool) returns (r: Result<Byte>)
      modifies this`leds, this`shown
      ensures closed ==> r == Err(ClosedStream) && leds == old(leds) && shown == old(shown)
      ensures !closed ==> r.Ok? && (DigitalOf(leds) & LED_RIGHT != LED_NONE) == toggle
      ensures !closed ==> DigitalOf(leds) & !LED_RIGHT == DigitalOf(old(leds)) & !LED_RIGHT
      ensures !closed ==> leds == (old(leds) & LED_ALL & !LED_SCR) | (if toggle then LED_SCR else LED_NONE)
      ensures !closed ==> shown == old(shown) + [leds]
    {
      var got := Digital();
      match got
      case Err(e) => r := Err(e);
      case Ok(was) =>
        var d := if toggle then was | LED_RIGHT else was & !LED_RIGHT;
        ChangeDigitalBit(leds, LED_RIGHT, LED_SCR, toggle);
        ReduceDigital(d);
        r := SetDigital(d as int);
    }

    /** Inverts the right LED. */
    method ToggleRight() returns (r: Outcome)
      modifies this`leds, this`shown
      ensures closed ==> r == Fail(ClosedStream) && leds == old(leds) && shown == old(shown)
      ensures !closed ==> r == Pass && DigitalOf(leds) == DigitalOf(old(leds)) ^ LED_RIGHT
      ensures !closed ==> leds == (old(leds) & LED_ALL) ^ LED_SCR && shown == old(shown) + [leds]
    {
      var lit := Right();
      match lit
      case Err(e) => r := Fail(e);
      case Ok(on) =>
        var w := SetRight(!on);
        r := ToOutcome(w);
    }

    /** The diagnostic rendering: the tty and the LEDs in digital order as
        three binary digits, or a note that the tty is closed. */
    method Inspect() returns (s: string)
      ensures closed ==> s == "#<BlinkenLights: closed>"
      ensures !closed ==> s == "#<BlinkenLights: tty=" + tty + ", LEDs=" + Binary3(DigitalOf(leds)) + ">"
    {
      if closed {
        s := "#<BlinkenLights: closed>";
      } else {
        var d := Digital();
        s := "#<BlinkenLights: tty=" + tty + ", LEDs=" + Binary3(d.value) + ">";
      }
    }
  }
}
