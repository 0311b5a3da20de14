/** Constants of the LED register and the permutation between the two bit
    orders of the three keyboard LEDs.

    Native order is the bit layout of the console's LED register (Scroll
    Lock = 1, Num Lock = 2, Caps Lock = 4). Digital order numbers the LEDs
    by their place on the keyboard (left = 4, middle = 2, right = 1). Two
    tables fix the physical arrangement: LEDS lists the LEDs from left to
    right, DIGITAL lists them from the lowest to the highest digital weight.
 */
module Leds {

  /** One byte of the LED register, as the device reports it. */
  type Byte = bv8

  // Native bit masks of the three LEDs.
  const LED_SCR: Byte := 0x01
  const LED_NUM: Byte := 0x02
  const LED_CAP: Byte := 0x04

  // Digital weights of the three positions.
  const LED_LEFT: Byte := 4
  const LED_MIDDLE: Byte := 2
  const LED_RIGHT: Byte := 1

  const LED_NONE: Byte := 0
  const LED_ALL: Byte := 7

  /** The three LEDs, by the lock key they belong to. */
  datatype Led = Scr | Num | Cap

  /** The native mask of an LED. */
  function Value(c: Led): (m: Byte)
    ensures m == LED_SCR || m == LED_NUM || m == LED_CAP
    ensures m != 0 && m & (m - 1) == 0
  {
    match c
    case Scr => LED_SCR
    case Num => LED_NUM
    case Cap => LED_CAP
  }

  /** The LEDs in order from left to right. */
  const LEDS: seq<Led> := [Num, Cap, Scr]

  /** The native masks of LEDS, in the same order. */
  const LEDS_VALUES: seq<Byte> := [Value(Num), Value(Cap), Value(Scr)]

  /** The LEDs in order from the lowest digital weight to the highest. */
  const DIGITAL: seq<Led> := [Scr, Num, Cap]

  /** The position of the first occurrence of `x` in `s`. */
  function IndexOf<T(==)>(s: seq<T>, x: T): (i: nat)
    requires x in s
    ensures i < |s| && s[i] == x
    ensures forall j :: 0 <= j < i ==> s[j] != x
  {
    if s[0] == x then 0 else 1 + IndexOf(s[1..], x)
  }

  /** Bit `i` of `x` is set: Ruby's `x[i] == 1`. */
  predicate Bit(x: Byte, i: nat): (b: bool)
    requires i < 8
    ensures b <==> x & ((1 as Byte) << i) != 0
  {
    (x >> i) & 1 == 1
  }

  /** Both tables list each LED exactly once. */
  lemma TablesArePermutations()
    ensures |LEDS| == 3 && |DIGITAL| == 3
    ensures forall c: Led :: c in LEDS && c in DIGITAL
    ensures forall i, j :: 0 <= i < j < 3 ==> LEDS[i] != LEDS[j] && DIGITAL[i] != DIGITAL[j]
    ensures forall i :: 0 <= i < 3 ==> LEDS_VALUES[i] == Value(LEDS[i])
  {
    forall c: Led
      ensures c in LEDS && c in DIGITAL
    {
      match c
      case Scr => assert LEDS[2] == Scr && DIGITAL[0] == Scr;
      case Num => assert LEDS[0] == Num && DIGITAL[1] == Num;
      case Cap => assert LEDS[1] == Cap && DIGITAL[2] == Cap;
    }
  }

  /** The digital weight `1 << DIGITAL.index(c)` of every LED is its own
      native mask: this is what makes the two tables consistent. */
  lemma DigitalWeightIsValue(c: Led)
    ensures (1 as Byte) << IndexOf(DIGITAL, c) == Value(c)
  {
  }

  /** The position in LEDS of the LED whose mask is `1 << i`. */
  lemma LedsValuesIndex(i: nat)
    requires i < 3
    ensures (1 as Byte) << i in LEDS_VALUES
    ensures IndexOf(LEDS_VALUES, (1 as Byte) << i) == [2, 0, 1][i]
  {
  }

  /** The native mask `digital=` sets for digital bit `i`: that of the LED
      at place `2 - i` from the left, found through the DIGITAL table. */
  function NativeWeight(i: nat): (w: Byte)
    requires i < 3
    ensures w == Value(LEDS[2 - i])
    ensures w == [LED_SCR, LED_CAP, LED_NUM][i]
  {
    DigitalWeightIsValue(LEDS[2 - i]);
    (1 as Byte) << IndexOf(DIGITAL, LEDS[2 - i])
  }

  /** The digital weight `digital` sets for native bit `i`: found from the
      place in LEDS of the LED whose mask is `1 << i`. */
  function DigitalWeight(i: nat): (w: Byte)
    requires i < 3
    ensures w == [LED_RIGHT, LED_LEFT, LED_MIDDLE][i]
  {
    LedsValuesIndex(i);
    (1 as Byte) << (2 - IndexOf(LEDS_VALUES, (1 as Byte) << i))
  }

  /** The native setting `digital=` has built once it has looked at the
      digital bits 0 .. i-1 of `number`. */
  function NativeUpTo(number: Byte, i: nat): (r: Byte)
    requires i <= 3
    ensures r <= LED_ALL
    ensures forall j :: 0 <= j < 3 ==> (r & NativeWeight(j) != 0 <==> j < i && Bit(number, j))
  {
    if i == 0 then 0
    else NativeUpTo(number, i - 1) | (if Bit(number, i - 1) then NativeWeight(i - 1) else 0)
  }

  /** After its three steps, `digital=` has set the Scroll Lock bit for
      digital bit 0, the Caps Lock bit for bit 1 and the Num Lock bit for
      bit 2. */
  lemma NativeUpToAll(number: Byte)
    ensures NativeUpTo(number, 3)
      == (if Bit(number, 0) then LED_SCR else 0)
       | (if Bit(number, 1) then LED_CAP else 0)
       | (if Bit(number, 2) then LED_NUM else 0)
  {
  }

  /** The digital value `digital` has built once it has looked at the
      native bits 2 down to 3-k of `setting`. */
  function DigitalDownFrom(setting: Byte, k: nat): (r: Byte)
    requires k <= 3
    ensures r <= LED_ALL
    ensures forall j :: 0 <= j < 3 ==> (r & DigitalWeight(j) != 0 <==> 3 - k <= j && Bit(setting, j))
  {
    if k == 0 then 0
    else DigitalDownFrom(setting, k - 1) | (if Bit(setting, 3 - k) then DigitalWeight(3 - k) else 0)
  }

  /** After its three steps, `digital` has set the right bit for Scroll
      Lock, the middle bit for Caps Lock and the left bit for Num Lock. */
  lemma DigitalDownFromAll(setting: Byte)
    ensures DigitalDownFrom(setting, 3)
      == (if Bit(setting, 1) then LED_LEFT else 0)
       | (if Bit(setting, 2) then LED_MIDDLE else 0)
       | (if Bit(setting, 0) then LED_RIGHT else 0)
  {
  }

  /** Digital to native: the register value written for the reduced digital
      value `d`. The right LED is Scroll Lock, the middle one Caps Lock and
      the left one Num Lock. */
  function NativeOf(d: Byte): (r: Byte)
    ensures r <= LED_ALL
    ensures (r & LED_SCR != 0) == (d & LED_RIGHT != 0)
    ensures (r & LED_CAP != 0) == (d & LED_MIDDLE != 0)
    ensures (r & LED_NUM != 0) == (d & LED_LEFT != 0)
  {
    NativeUpToAll(d);
    NativeUpTo(d, 3)
  }

  /** Native to digital: the digital value read back from register value
      `s`. Only the three LED bits of `s` are looked at. */
  function DigitalOf(s: Byte): (r: Byte)
    ensures r <= LED_ALL
    ensures (r & LED_RIGHT != 0) == (s & LED_SCR != 0)
    ensures (r & LED_MIDDLE != 0) == (s & LED_CAP != 0)
    ensures (r & LED_LEFT != 0) == (s & LED_NUM != 0)
  {
    DigitalDownFromAll(s);
    DigitalDownFrom(s, 3)
  }

  /** Reading back what was written gives the digital value written. */
  lemma DigitalOfNativeOf(d: Byte)
    requires d <= LED_ALL
    ensures DigitalOf(NativeOf(d)) == d
  {
  }

  /** Writing back what was read restores the three LED bits. */
  lemma NativeOfDigitalOf(s: Byte)
    ensures NativeOf(DigitalOf(s)) == s & LED_ALL
  {
  }

  /** `number %= 8`, the reduction `digital=` starts with. Ruby's `%` with
      a positive divisor never yields a negative remainder, like Dafny's. */
  function Reduce(number: int): (d: Byte)
    ensures d <= LED_ALL && d as int == number % 8
  {
    (number % 8) as Byte
  }

  /** A digital value is unchanged by that reduction. */
  lemma ReduceDigital(x: Byte)
    requires x <= LED_ALL
    ensures Reduce(x as int) == x
  {
  }

  /** Setting (or clearing) the digital bit `m` of what was read from `s`
      and writing the result back changes only the LED at that place, whose
      native mask is `c`, and drops the register bits above the LEDs. */
  lemma ChangeDigitalBit(s: Byte, m: Byte, c: Byte, toggle: bool)
    requires (m == LED_LEFT && c == LED_NUM) || (m == LED_MIDDLE && c == LED_CAP) || (m == LED_RIGHT && c == LED_SCR)
    ensures var d := if toggle then DigitalOf(s) | m else DigitalOf(s) & !m;
      && d <= LED_ALL
      && NativeOf(d) == (s & LED_ALL & !c) | (if toggle then c else LED_NONE)
      && (DigitalOf(NativeOf(d)) & m != LED_NONE) == toggle
      && DigitalOf(NativeOf(d)) & !m == DigitalOf(s) & !m
  {
  }

  /** `digital = n` followed by `digital` yields `n mod 8`, for every integer `n`. */
  lemma RoundTrip(n: int)
    ensures DigitalOf(NativeOf(Reduce(n))) as int == n % 8
  {
  }

  /** The permutation is a bijection on 0..7. */
  lemma NativeOfIsBijective()
    ensures forall a, b :: a <= LED_ALL && b <= LED_ALL && NativeOf(a) == NativeOf(b) ==> a == b
    ensures forall s :: s <= LED_ALL ==> DigitalOf(s) <= LED_ALL && NativeOf(DigitalOf(s)) == s
  {
  }

  /** A digital value written as three binary digits, most significant
      (the left LED) first, as `'%03b'` renders it. */
  function Binary3(d: Byte): (r: string)
    requires d <= LED_ALL
    ensures |r| == 3 && forall k :: 0 <= k < 3 ==> r[k] in "01"
    ensures (if r[0] == '1' then 4 else 0) + (if r[1] == '1' then 2 else 0) + (if r[2] == '1' then 1 else 0) == d as int
  {
    seq(3, k requires 0 <= k < 3 => if Bit(d, 2 - k) then '1' else '0')
  }
}
