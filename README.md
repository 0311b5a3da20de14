# BlinkenLights LED controller, modelled in Dafny

BlinkenLights reads and sets the keyboard indicator LEDs (Scroll Lock, Num
Lock, Caps Lock) of a console tty. A controller object holds the open tty and
the register value it read when it was created. Everything else is built on
one read primitive (`get`) and one write primitive (`set`).

The Dafny model has three modules:

- `Leds` (`leds.dfy`): the register constants and the two order tables.
  `LEDS` lists the LEDs from left to right. `DIGITAL` lists them from the
  lowest to the highest digital weight. From the tables it defines the
  permutation between native order (Scroll = 1, Num = 2, Caps = 4) and digital
  order (left = 4, middle = 2, right = 1). `NativeUpTo` and `DigitalDownFrom`
  follow the accumulating loops of `digital=` and `digital` step by step.
  `NativeOf` and `DigitalOf` state what those loops compute: right is Scroll
  Lock, middle is Caps Lock, left is Num Lock. Lemmas prove that the two
  directions are inverse bijections on 0..7 and that `digital = n` followed
  by `digital` gives `n mod 8`.
- `Controller` (`controller.dfy`): class `BlinkenLights`. It has the register
  (`leds`, one byte, native order), the value captured at creation
  (`oldLeds`), the open/closed flag of the tty and the tty path. A ghost
  sequence `shown` records every value written to the register, in order.
  This lets each blink pattern state the exact series of LED states it shows,
  not just where it ends. `Get` and `Set` stand for the device primitives.
  Both fail with `ClosedStream` once the tty is closed, and every other
  operation passes that failure on. Only `Close` changes the closed flag.
  So every operation built on `get` or `set` fails at its first step on a
  closed controller and changes nothing, and on an open one it runs to the
  end. `closed?` (`IsClosed`) and `to_s` (`Inspect`) do not touch the
  register and work on a closed controller too.
- `Scenarios` (`scenarios.dfy`): the library's unit-test scenarios as client
  methods. They start from any register value and any random choice and
  promise what the tests assert. They also show that each toggle, applied
  twice, restores the register.

Two behaviours of the code are easy to miss, and the model keeps both:

- The register is a byte, not a value in 0..7. On the ioctl platform `get`
  unpacks one byte. `digital` looks only at bits 0..2, so its result is always
  in 0..7. `digital=` writes only values in 0..7. The native setters
  (`scr=`, `cap=`, `num=`) keep every other bit. The digital setters
  (`left=`, `middle=`, `right=`) go through `digital=`, so they clear bits
  3..7. The contracts say so.
- `close` is not idempotent. Its `reset` writes the register, so a second
  `close` fails with the closed-stream error. Only the `closed?` query is
  safe to repeat.

## Model

| member | source | states |
|---|---|---|
| `Leds.Value` | lib/blinkenlights.rb:40 | `const_get` of an LED's name: its native mask, a single bit among Scroll, Num and Caps |
| `Leds.Bit` | lib/blinkenlights.rb:173 | Ruby's `number[i] == 1`: bit `i` of the value is set |
| `Leds.NativeUpTo` | lib/blinkenlights.rb:171-176 | the `digital=` loop after looking at digital bits below `i`: a value in 0..7 whose native bit for digital bit `j` is set exactly when `j < i` and bit `j` of the number is set |
| `Leds.DigitalDownFrom` | lib/blinkenlights.rb:183-188 | the `digital` loop after looking at native bits `2` down to `3 - k`: a value in 0..7 whose digital weight for native bit `j` is set exactly when `j` has been looked at and bit `j` of the register is set |
| `Leds.TablesArePermutations` | lib/blinkenlights.rb:37-43 | `LEDS` and `DIGITAL` each list every LED exactly once, and `LEDS_VALUES` holds the masks of `LEDS` in order |
| `Leds.DigitalWeightIsValue` | lib/blinkenlights.rb:21-43 | for every LED `c`, `1 << DIGITAL.index(c)` is the native mask of `c`; this is why the two tables agree |
| `Leds.LedsValuesIndex` | lib/blinkenlights.rb:184-187 | every mask `1 << i` with `i` in 0..2 occurs in `LEDS_VALUES`, and its place there is the LED's place from the left |
| `Leds.IndexOf` | lib/blinkenlights.rb:174 | `Array#index`: the result is a position holding `x`, and no earlier position holds `x` |
| `Leds.NativeWeight` | lib/blinkenlights.rb:174 | the mask `digital=` sets for digital bit `i` belongs to the LED at place `2 - i` from the left: Scroll, Caps, Num for bits 0, 1, 2 |
| `Leds.DigitalWeight` | lib/blinkenlights.rb:186 | the weight `digital` sets for native bit `i`: right, left, middle for Scroll, Num, Caps |
| `Leds.NativeUpToAll` | lib/blinkenlights.rb:171-176 | after its three steps the `digital=` loop has set the Scroll, Caps and Num bits exactly for digital bits 0, 1 and 2 |
| `Leds.DigitalDownFromAll` | lib/blinkenlights.rb:183-188 | after its three steps the `digital` loop has set the right, middle and left bits exactly for the Scroll, Caps and Num bits |
| `Leds.NativeOf` | lib/blinkenlights.rb:169-178 | digital to native: the result is in 0..7, right lights Scroll Lock, middle lights Caps Lock and left lights Num Lock |
| `Leds.DigitalOf` | lib/blinkenlights.rb:181-190 | native to digital: the result is in 0..7 whatever the byte holds, and each digital bit is set exactly when its LED's native bit is set |
| `Leds.DigitalOfNativeOf` | lib/blinkenlights.rb:169-190 | reading back a written digital value in 0..7 gives that value |
| `Leds.NativeOfDigitalOf` | lib/blinkenlights.rb:169-190 | writing back a value read restores the three LED bits of the register and clears the rest |
| `Leds.NativeOfIsBijective` | lib/blinkenlights.rb:169-190 | on 0..7 the permutation is one-to-one, and every native value in 0..7 is written for some digital value |
| `Leds.Reduce` | lib/blinkenlights.rb:170 | `number %= 8` gives a value in 0..7 equal to the integer `number mod 8`, negative numbers included |
| `Leds.ReduceDigital` | lib/blinkenlights.rb:332-337 | a digital value in 0..7 passed back to `digital=` is left unchanged by the reduction |
| `Leds.RoundTrip` | lib/blinkenlights.rb:169-190 | for every integer `n`, writing `digital = n` and reading `digital` gives `n mod 8` |
| `Leds.ChangeDigitalBit` | lib/blinkenlights.rb:331-338 | setting or clearing one digital bit of a value read and writing it back changes only that LED's native bit and clears the bits above the LEDs; the other two digital bits are kept |
| `Leds.Binary3` | lib/blinkenlights.rb:435 | `'%03b'`: three characters, each `0` or `1`, that spell the digital value in binary |
| `Controller.BlinkenLights.constructor` | lib/blinkenlights.rb:103-107 | a new controller is open, its register is the value read from the tty, and that value is kept as the reset value |
| `Controller.BlinkenLights.Open` | lib/blinkenlights.rb:116-127 | `open` without a block returns a new open controller, as the constructor does |
| `Controller.BlinkenLights.IsClosed` | lib/blinkenlights.rb:137-139 | `closed?` reports whether the tty has been closed |
| `Controller.BlinkenLights.Get` | lib/blinkenlights.rb:421-425 | reading gives the register, or fails with the closed-stream error once closed |
| `Controller.BlinkenLights.Set` | lib/blinkenlights.rb:414-418 | writing stores the value and returns it, or fails once closed and changes nothing |
| `Controller.BlinkenLights.Reset` | lib/blinkenlights.rb:143-146 | writes back the value captured at creation, whatever happened in between |
| `Controller.BlinkenLights.Close` | lib/blinkenlights.rb:130-134 | the first close resets the LEDs and closes the tty; a second close fails and changes nothing; afterwards the tty is closed |
| `Controller.BlinkenLights.Off` | lib/blinkenlights.rb:149-152 | writes exactly 0 to the register, so every LED reads off |
| `Controller.BlinkenLights.On` | lib/blinkenlights.rb:155-158 | writes exactly 7 to the register, so every LED reads on |
| `Controller.BlinkenLights.Flash` | lib/blinkenlights.rb:162-166 | shows all on, then all off, and leaves the register exactly 0 |
| `Controller.BlinkenLights.SetDigital` | lib/blinkenlights.rb:169-178 | `digital=`: the loop builds the permutation of `number mod 8` and writes it once; the digital value read back is `number mod 8` |
| `Controller.BlinkenLights.Digital` | lib/blinkenlights.rb:181-190 | `digital`: the loop builds the digital form of the register, a value in 0..7, or the call fails once closed |
| `Controller.BlinkenLights.Play` | lib/blinkenlights.rb:195-198 | the shared `for i in [...]; self.digital = i` loop: it writes the permutation of each step in order and ends on the last one |
| `Controller.BlinkenLights.LeftToRight` | lib/blinkenlights.rb:194-200 | lights Num, Caps and Scroll Lock alone in turn and leaves the register exactly Scroll Lock, digital value RIGHT |
| `Controller.BlinkenLights.RightToLeft` | lib/blinkenlights.rb:204-210 | lights Scroll, Caps and Num Lock alone in turn and leaves the register exactly Num Lock, digital value LEFT |
| `Controller.BlinkenLights.Circle` | lib/blinkenlights.rb:214-218 | shows the left-to-right sweep and then the right-to-left sweep, six states in all, and leaves the register exactly Num Lock (LEFT) |
| `Controller.BlinkenLights.ReverseCircle` | lib/blinkenlights.rb:222-226 | shows the right-to-left sweep and then the left-to-right sweep, and leaves the register exactly Scroll Lock (RIGHT) |
| `Controller.BlinkenLights.Random` | lib/blinkenlights.rb:229-233 | writes exactly the permutation of the chosen digital value in 0..7, which then reads back as that value |
| `Controller.BlinkenLights.Converge` | lib/blinkenlights.rb:237-243 | lights the outer LEDs (Num and Scroll), then the middle one, and leaves the register exactly Caps Lock (MIDDLE) |
| `Controller.BlinkenLights.Diverge` | lib/blinkenlights.rb:247-253 | lights the middle LED, then the outer ones, and leaves the register exactly Num and Scroll Lock, digital value 5 |
| `Controller.BlinkenLights.Scr` | lib/blinkenlights.rb:257-259 | Scroll Lock reads lit exactly when its mask is set in the register |
| `Controller.BlinkenLights.SetScr` | lib/blinkenlights.rb:262-269 | Scroll Lock then reads as assigned, and every other register bit is unchanged |
| `Controller.BlinkenLights.ToggleScr` | lib/blinkenlights.rb:273-277 | flips exactly the Scroll Lock bit |
| `Controller.BlinkenLights.Cap` | lib/blinkenlights.rb:280-282 | Caps Lock reads lit exactly when its mask is set in the register |
| `Controller.BlinkenLights.SetCap` | lib/blinkenlights.rb:285-292 | Caps Lock then reads as assigned, and every other register bit is unchanged |
| `Controller.BlinkenLights.ToggleCap` | lib/blinkenlights.rb:296-300 | flips exactly the Caps Lock bit |
| `Controller.BlinkenLights.Num` | lib/blinkenlights.rb:303-305 | Num Lock reads lit exactly when its mask is set in the register |
| `Controller.BlinkenLights.SetNum` | lib/blinkenlights.rb:308-315 | Num Lock then reads as assigned, and every other register bit is unchanged |
| `Controller.BlinkenLights.ToggleNum` | lib/blinkenlights.rb:319-322 | flips exactly the Num Lock bit |
| `Controller.BlinkenLights.Left` | lib/blinkenlights.rb:326-328 | the left LED reads lit exactly when Num Lock's bit is set |
| `Controller.BlinkenLights.SetLeft` | lib/blinkenlights.rb:331-338 | the left LED then reads as assigned and the middle and right LEDs keep their state; natively only Num Lock changes, and the bits above the LEDs are cleared |
| `Controller.BlinkenLights.ToggleLeft` | lib/blinkenlights.rb:342-346 | flips the left digital bit, which is Num Lock's native bit |
| `Controller.BlinkenLights.Middle` | lib/blinkenlights.rb:349-351 | the middle LED reads lit exactly when Caps Lock's bit is set |
| `Controller.BlinkenLights.SetMiddle` | lib/blinkenlights.rb:354-361 | the middle LED then reads as assigned and the other two keep their state; natively only Caps Lock changes, and the bits above the LEDs are cleared |
| `Controller.BlinkenLights.ToggleMiddle` | lib/blinkenlights.rb:365-369 | flips the middle digital bit, which is Caps Lock's native bit |
| `Controller.BlinkenLights.Right` | lib/blinkenlights.rb:372-374 | the right LED reads lit exactly when Scroll Lock's bit is set |
| `Controller.BlinkenLights.SetRight` | lib/blinkenlights.rb:377-384 | the right LED then reads as assigned and the other two keep their state; natively only Scroll Lock changes, and the bits above the LEDs are cleared |
| `Controller.BlinkenLights.ToggleRight` | lib/blinkenlights.rb:388-391 | flips the right digital bit, which is Scroll Lock's native bit |
| `Controller.BlinkenLights.Inspect` | lib/blinkenlights.rb:430-437 | `to_s`: the closed note once closed, otherwise the tty and the LEDs in digital order as three binary digits |
| `Scenarios.Lights` | tests/test.rb:18-20 | the left, middle and right LEDs read as the three digital bits of the register |
| `Scenarios.CloseThenFlash` | tests/test.rb:26-31 | a fresh controller is open, it is closed after `close`, and a later `flash` fails with the closed-stream error |
| `Scenarios.OpenThenClose` | tests/test.rb:42-46 | a controller from `open` closes once, and a second close fails |
| `Scenarios.RandomThenReset` | tests/test.rb:48-52 | after `random` and `reset` the three LEDs read as they did at creation |
| `Scenarios.OffAfterRandom` | tests/test.rb:54-60 | after `random` and `off`, no LED is lit |
| `Scenarios.OnAfterRandom` | tests/test.rb:62-68 | after `random` and `on`, every LED is lit |
| `Scenarios.FlashAfterRandom` | tests/test.rb:70-76 | after `random` and `flash`, no LED is lit |
| `Scenarios.DigitalReadsBack` | tests/test.rb:78-84 | for `i` in 0..8, `digital = i` reads back as `i % 8` |
| `Scenarios.LeftToRightAfterRandom` | tests/test.rb:86-92 | `left_to_right` leaves only the right LED lit |
| `Scenarios.RightToLeftAfterRandom` | tests/test.rb:94-100 | `right_to_left` leaves only the left LED lit |
| `Scenarios.CircleAfterRandom` | tests/test.rb:102-108 | `circle` leaves only the left LED lit |
| `Scenarios.ReverseCircleAfterRandom` | tests/test.rb:110-116 | `reverse_circle` leaves only the right LED lit |
| `Scenarios.ConvergeAfterRandom` | tests/test.rb:118-124 | `converge` leaves only the middle LED lit |
| `Scenarios.DivergeAfterRandom` | tests/test.rb:126-132 | `diverge` leaves the left and right LEDs lit and the middle one off |
| `Scenarios.LeftSetAndToggle` | tests/test.rb:134-144 | `left = false`, `left = true` and two `toggle_left` read back false, true, false, true |
| `Scenarios.MiddleSetAndToggle` | tests/test.rb:146-156 | the same sequence for the middle LED reads false, true, false, true |
| `Scenarios.RightSetAndToggle` | tests/test.rb:158-168 | the same sequence for the right LED reads false, true, false, true |
| `Scenarios.NumSetAndToggle` | tests/test.rb:170-180 | the same sequence for Num Lock reads false, true, false, true |
| `Scenarios.CapSetAndToggle` | tests/test.rb:182-192 | the same sequence for Caps Lock reads false, true, false, true |
| `Scenarios.ScrSetAndToggle` | tests/test.rb:194-204 | the same sequence for Scroll Lock reads false, true, false, true |
| `Scenarios.ScrToggledTwice` | lib/blinkenlights.rb:273-277 | two `toggle_scr` restore the register exactly |
| `Scenarios.CapToggledTwice` | lib/blinkenlights.rb:296-300 | two `toggle_cap` restore the register exactly |
| `Scenarios.NumToggledTwice` | lib/blinkenlights.rb:319-322 | two `toggle_num` restore the register exactly |
| `Scenarios.LeftToggledTwice` | lib/blinkenlights.rb:342-346 | two `toggle_left` restore the three LEDs; the bits above them end up cleared |
| `Scenarios.MiddleToggledTwice` | lib/blinkenlights.rb:365-369 | two `toggle_middle` restore the three LEDs; the bits above them end up cleared |
| `Scenarios.RightToggledTwice` | lib/blinkenlights.rb:388-391 | two `toggle_right` restore the three LEDs; the bits above them end up cleared |

## Left out

- The device primitives are not modelled. These are the KDGETLED/KDSETLED ioctls (lib/blinkenlights.rb:414-425) and, on Windows, the `GetKeyState`/`keybd_event` calls (lib/blinkenlights.rb:60-85, 393-411). The register field stands for them. Failures of the ioctl other than a closed tty are not modelled.
- `Controller.BlinkenLights.Set` stores any byte. The Ruby `set` is public and passes any Integer to KDSETLED; the `Byte` parameter leaves out values outside 0..255. What the kernel does with a value outside the three LED bits is not modelled.
- All pauses are left out, because they are timing only: `sleep`, the `delay` accessor, `DEF_DELAY` and the `delay` arguments of the patterns and toggles. `toggle_num` and `toggle_right` accept a delay but never sleep; that has no effect on the LEDs.
- The default tty comes from the `BLINKENLIGHTS_TTY` environment variable. Here the tty path is an explicit constructor argument.
- `Controller.BlinkenLights.constructor` always succeeds. Failure to open the device is I/O and is not modelled. The register value read at creation is a constructor argument.
- The block form of `BlinkenLights.open` (yield, then close in `ensure`) is left out. Only the form without a block is modelled.
- `Controller.BlinkenLights.Random` takes the random value as an argument in 0..7. It does not draw it.
- `Controller.BlinkenLights.Inspect` leaves out the `delay=…s` part of `to_s`, because the delay (a float) is not modelled. The class name is written literally.
- The example scripts `examples/loadbar.rb` and `examples/netblinker.rb` are left out. They are polling loops over `/proc` files. `install.rb` and `make_doc.rb` are left out too.
- `tests/test.rb` defines `test_on` twice, so only the second one, which tests `flash`, runs. Both scenarios are modelled, as `Scenarios.OnAfterRandom` and `Scenarios.FlashAfterRandom`.
