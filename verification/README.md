# miLight command encoder and sequencer

A Dafny model of the miLight part of the adapter in `miLight-adapter.js`. A
light has three cached properties, `on`, `level` (brightness in percent) and
`color`. A write to one of them becomes a short series of 2-byte RF commands
`{code, param}` for the light's zone. Zone 0 is the broadcast zone; zones 1 to
4 are bulb groups. Each command travels to the UDP-to-RF bridge as the 3-byte
datagram `[code, param, 0x55]`. Some commands go out at once; others go out
from a timer after a 100 ms or 80 ms settle delay.

The model has three modules:

- `Encoder` (encoder.dfy), pure. It holds the per-zone white, on and off code
  tables and the brightness encoder `levelToCmd`. It also holds the colour
  encoder `cssToCmd`, with its hue clamp at 271 degrees, and the datagram
  `sendProperties` builds.
- `Sequencing` (sequencing.dfy), pure. It specifies one property write as a
  value: `Apply` gives the new cached state and the sends the write issues, in
  order, each either `Now(cmd)` or `After(ms, cmd)`. `Run` chains writes. The
  lemmas state what each kind of write does, and that every delayed send comes
  straight after the zone's on-pulse.
- `Devices` (device.dfy), imperative. The class `Device` has the cached
  fields, the `recentlyUpdated` flag and the log of issued sends. Its methods
  follow `setValue`, `notifyStateChanged`, `notifyLvlColChanged` and the
  frame-and-flag part of `sendProperties` step by step. `SetValue` and, for
  level and colour writes, `NotifyLvlColChanged` are proved to leave the
  device in the state `Apply` gives and to append exactly the sends `Apply`
  gives. `SetOn` is proved equal to `Power`, the specification of an `on`
  write. The helpers `SendProperties`, `Emit`, `Schedule` and
  `NotifyStateChanged` carry their own contracts: the datagram and the flag,
  one immediate send, one delayed send, and the on or off code when told the
  value changed.

A colour is given as what the colour library reports for it: its RGB number
and its hue in degrees, a real number in [0, 360). A level is an integer.

Where the code and the documented intent of the adapter differ, the model
follows the code:

- Every write to `on` sends the on or off code, even when the value did not
  change. `setValue` computes whether the value changed, but then always
  passes `1` to `notifyStateChanged` (miLight-adapter.js:138-142).
  `RepeatedOnWriteResends` proves the second identical write sends again.
- A positive level written while the light is already on still sends the
  zone's on code before the brightness command, which waits 80 ms
  (miLight-adapter.js:199-201).
- Level 1 gives brightness parameter 0, not 1, because Math.round(0.25) is 0.
- Writing `on` after writing level 0 leaves the light on at level 0. Writing
  level 0 forces the light off, and a positive level forces it on. Neither is
  an invariant of the cached state; `LastLevelDecidesPower` states what does
  hold.

## Model

| member | source | states |
|---|---|---|
| `Encoder.JsRound` | miLight-adapter.js:25 | Math.round: the result lies within one half of its argument, and halves round upward |
| `Encoder.QuarterRounding` | miLight-adapter.js:25 | for every integer level, Math.round(level / 4) equals (level + 2) / 4 in integer division |
| `Encoder.LevelToCmd` | miLight-adapter.js:21-31 | a command exists exactly when the level is positive; it then has code 0x4E and param Math.round(level / 4); levels 1 to 100 give params 0 to 25; level 1 gives param 0 |
| `Encoder.LevelMonotone` | miLight-adapter.js:21-31 | a higher level never gives a lower brightness parameter |
| `Encoder.ClampHue` | miLight-adapter.js:47-49 | the clamped hue is at most 271 and at most the hue; it is either the hue or 271 |
| `Encoder.CssToCmd` | miLight-adapter.js:33-58 | pure white gives {whiteCodes[zone], 0}; any other colour gives code 0x40 and a param in 0..192 that is the greatest integer not above 192 - min(h, 271) * 255 / 360 |
| `Encoder.HueTestExact` | miLight-adapter.js:117 | no white code equals 0x40, so the encoded colour is a hue command exactly when the colour is not pure white |
| `Encoder.HueClamped` | miLight-adapter.js:47-49 | every hue above 271 gives the same command as hue 271 |
| `Encoder.HueZero` | miLight-adapter.js:44-56 | a colour that is not white with hue 0 gives {0x40, 192} |
| `Encoder.HueAntitone` | miLight-adapter.js:50-51 | a larger hue never gives a larger hue parameter |
| `Encoder.ToByte` | miLight-adapter.js:310 | Buffer.from keeps a number's value modulo 256, a byte, and keeps byte values unchanged |
| `Encoder.Frame` | miLight-adapter.js:310 | the datagram has exactly three bytes and ends with 0x55; the empty command gives [0, 0, 0x55] |
| `Encoder.ParseFrame` | miLight-adapter.js:310 | reading a datagram back yields a command |
| `Encoder.FrameRoundTrip` | miLight-adapter.js:310 | a command of bytes read back from its datagram is the command itself |
| `Encoder.EncodersYieldBytes` | miLight-adapter.js:309-310 | brightness commands for levels 1 to 100 and all colour commands are bytes, so their datagrams carry them exactly |
| `Sequencing.Apply` | miLight-adapter.js:136-209 | a write issues one or two sends, the first at once; a second send is delayed by 100 or 80 ms and follows the zone's on-pulse directly |
| `Sequencing.Run` | miLight-adapter.js:136-209 | a series of n writes issues between n and 2n sends; in issue order, every delayed send of the series comes straight after the zone's on-pulse, with a delay of 100 or 80 ms |
| `Sequencing.RunAppend` | miLight-adapter.js:136-148 | a series of writes followed by one more is the series, then that write from the state the series left |
| `Sequencing.OnWrite` | miLight-adapter.js:136-143 | writing `on` caches the value and sends exactly one command at once, {onCodes[zone] or offCodes[zone], 0}, whatever the old value |
| `Sequencing.RepeatedOnWriteResends` | miLight-adapter.js:138-142 | writing the same `on` value twice sends its code twice |
| `Sequencing.LevelZeroWrite` | miLight-adapter.js:189-192 | writing level 0 turns the light off and sends exactly one command at once, {offCodes[zone], 0}, and no brightness command |
| `Sequencing.LevelPositiveWrite` | miLight-adapter.js:193-202 | writing a positive level sends {onCodes[zone], 0} at once, then the brightness command after 100 ms if the light was off or 80 ms if it was on; the light is on afterwards |
| `Sequencing.HueWriteOnZone` | miLight-adapter.js:179-184 | on zones 1 to 4, writing a colour that is not white sends the zone's on code at once, then the hue command after 100 ms; the light is on afterwards |
| `Sequencing.DirectColourWrite` | miLight-adapter.js:185-187 | writing white, or any colour on zone 0, sends exactly the encoded command at once and leaves `on` unchanged |
| `Sequencing.LastLevelDecidesPower` | miLight-adapter.js:189-202 | after any series of writes that ends with level v, the light is on exactly when v is not 0, and its level is v |
| `Devices.Device.constructor` | miLight-adapter.js:152-162 | a new device is off at level 0 and white, with nothing sent and the flag clear |
| `Devices.Device.SendProperties` | miLight-adapter.js:309-316 | the datagram is [code, param, 0x55] of the command; the flag is set and no other field changes |
| `Devices.Device.Emit` | miLight-adapter.js:186 | an immediate send is logged as such and sets the flag |
| `Devices.Device.Schedule` | miLight-adapter.js:183 | a delayed send is logged with its delay; nothing else changes yet |
| `Devices.Device.NotifyStateChanged` | miLight-adapter.js:164-172 | when told the value changed, it sends at once the on or off code that matches the cached value; the cached values stay as they are |
| `Devices.Device.SetOn` | miLight-adapter.js:136-143 | caches the value and always sends the matching on or off code at once |
| `Devices.Device.NotifyLvlColChanged` | miLight-adapter.js:174-209 | for a level or colour write already cached, the new state and the sends are those `Apply` gives; for any other property nothing changes |
| `Devices.Device.SetValue` | miLight-adapter.js:136-148 | any write leaves the device in the state `Apply` gives, appends exactly the sends `Apply` gives, and sets the flag |

## Left out

- Sending the datagram over UDP (socket creation, send, close) is I/O. Only the datagram's bytes and the flag are modelled.
- Timers are not modelled. A delayed send is a label `After(ms, cmd)` in the log. So the model does not cover when the send fires, or how delayed sends of quick successive writes interleave. The flag setting done by the delayed send is not modelled either; the write's immediate send has set the flag already.
- Parsing CSS colour strings and converting RGB to HSL are done by an external colour library. A colour is given as its RGB number and hue, with the hue in [0, 360).
- A colour string the colour library cannot parse is not modelled. In the code, `Color(cssColor)` (miLight-adapter.js:36) then throws inside the promise of `setValue`, after the string has been cached and the promise resolved (miLight-adapter.js:139-140). So such a write caches the bad string, sends nothing and leaves `on` as it was.
- The hue formula is computed over exact reals. JavaScript doubles can give a different result only when the value lies at a floor boundary.
- Levels are integers; a fractional level is not modelled.
- Zones are 0 to 4, as configured. The effect of an out-of-range zone on table lookups is not modelled.
- `Devices.Device.SetValue`: the value the returned promise resolves to is not modelled, and neither is `notifyPropertyChanged` of the host framework.
- The adapter's device bookkeeping is not modelled. This covers `addDevice`, `removeDevice`, pairing, unpairing, configuration loading and the device template objects.
- `recentlyUpdated` is only set, because nothing in the code reads or clears it.
- The Sonoff adapter (sonoff-diy-adapter.js) is not part of this model.
