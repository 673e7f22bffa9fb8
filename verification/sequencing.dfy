/** What one property write does to a miLight device, as values: the cached
    state afterwards and the sends it issues, in issue order. The Device class
    in module Devices is proved to behave exactly like this. */
module Sequencing {
  import opened Encoder

  /** Settle delay before a command that follows the zone's on-pulse. */
  const PulseDelay := 100
  /** Settle delay before a brightness command to a bulb that was already on. */
  const OnDelay := 80

  /** A send issued by a write: at once, or from a timer after `ms` milliseconds. */
  datatype Action = Now(cmd: Cmd) | After(ms: int, cmd: Cmd)

  /** The cached values of a device's three properties. */
  datatype LightState = LightState(on: bool, level: int, colour: Colour)

  /** The state of a new device: off, level 0, white. */
  const Initial := LightState(false, 0, DefaultColour)

  /** A write of one property. */
  datatype Write = WriteOn(on: bool) | WriteLevel(level: int) | WriteColour(colour: Colour)

  /** The colour library only ever reports hues in [0, 360). */
  predicate Writable(w: Write)
  {
    w.WriteColour? ==> HueInRange(w.colour)
  }

  predicate AllWritable(ws: seq<Write>)
  {
    forall i :: 0 <= i < |ws| ==> Writable(ws[i])
  }

  /** The on or off code of the zone. */
  function PowerCmd(v: bool, zone: Zone): Cmd
  {
    RfCmd(if v then OnCodes[zone] else OffCodes[zone], 0x00)
  }

  /** The effect of a write and the sends it issues. */
  datatype Outcome = Outcome(state: LightState, actions: seq<Action>)

  /** Writing `on`: the value is cached and, because the change flag is
      always passed as 1, the on or off code is sent whether or not the value changed. */
  function Power(s: LightState, zone: Zone, v: bool): Outcome
  {
    Outcome(s.(on := v), [Now(PowerCmd(v, zone))])
  }

  /** In issue order, a delayed send always comes right after the zone's
      on-pulse. When timers fire, sends of later writes may come between them. */
  predicate PulseBeforeDelay(acts: seq<Action>, zone: Zone)
  {
    forall i :: 0 <= i < |acts| && acts[i].After? ==> 0 < i && acts[i - 1] == Now(PowerCmd(true, zone))
  }

  /** Every delay is one of the two settle delays. */
  predicate SettleDelays(acts: seq<Action>)
  {
    forall i :: 0 <= i < |acts| && acts[i].After? ==> acts[i].ms == PulseDelay || acts[i].ms == OnDelay
  }

  /** One write: the property's cached value is replaced, then the level and
      colour writes run the sequencer, which may write `on` itself. */
  function Apply(s: LightState, zone: Zone, w: Write): (r: Outcome)
    requires Writable(w)
    ensures 1 <= |r.actions| <= 2 && r.actions[0].Now?
    ensures |r.actions| == 2 ==> r.actions[0] == Now(PowerCmd(true, zone)) && r.actions[1].After?
    ensures PulseBeforeDelay(r.actions, zone) && SettleDelays(r.actions)
  {
    match w
    case WriteOn(v) => Power(s, zone, v)
    case WriteLevel(v) =>
      var s1 := s.(level := v);
      if v == 0 then
        Power(s1, zone, false)
      else
        var cmd := LevelToCmd(v);
        var delay := if s1.on == false then PulseDelay else OnDelay;
        var pulse := Power(s1, zone, true);
        Outcome(pulse.state, pulse.actions + [After(delay, cmd)])
    case WriteColour(c) =>
      var s1 := s.(colour := c);
      var cmd := CssToCmd(c, zone);
      if IsHue(cmd) && zone != 0 then
        var pulse := Power(s1, zone, true);
        Outcome(pulse.state, pulse.actions + [After(PulseDelay, cmd)])
      else
        Outcome(s1, [Now(cmd)])
  }

  /** A series of writes to one device, one after the other. */
  function Run(s: LightState, zone: Zone, ws: seq<Write>): (r: Outcome)
    requires AllWritable(ws)
    ensures |ws| <= |r.actions| <= 2 * |ws|
    ensures ws != [] ==> r.actions[0].Now?
    ensures PulseBeforeDelay(r.actions, zone) && SettleDelays(r.actions)
    decreases |ws|
  {
    if ws == [] then
      Outcome(s, [])
    else
      var first := Apply(s, zone, ws[0]);
      var rest := Run(first.state, zone, ws[1..]);
      var acts := first.actions + rest.actions;
      assert forall i :: |first.actions| <= i < |acts| ==> acts[i] == rest.actions[i - |first.actions|];
      Outcome(rest.state, acts)
  }

  /** Running writes one after another is running them in two batches. */
  lemma {:induction false} RunAppend(s: LightState, zone: Zone, ws: seq<Write>, w: Write)
    requires AllWritable(ws) && Writable(w)
    ensures AllWritable(ws + [w])
    ensures Run(s, zone, ws + [w]).state == Apply(Run(s, zone, ws).state, zone, w).state
    ensures Run(s, zone, ws + [w]).actions == Run(s, zone, ws).actions + Apply(Run(s, zone, ws).state, zone, w).actions
    decreases |ws|
  {
    assert AllWritable(ws + [w]) by {
      forall i | 0 <= i < |ws + [w]| ensures Writable((ws + [w])[i]) {
        if i < |ws| { assert (ws + [w])[i] == ws[i]; }
      }
    }
    if ws == [] {
      assert [w][1..] == [];
    } else {
      var first := Apply(s, zone, ws[0]);
      assert (ws + [w])[0] == ws[0];
      assert (ws + [w])[1..] == ws[1..] + [w];
      assert AllWritable(ws[1..]) by {
        forall i | 0 <= i < |ws[1..]| ensures Writable(ws[1..][i]) {
          assert ws[1..][i] == ws[i + 1];
        }
      }
      RunAppend(first.state, zone, ws[1..], w);
    }
  }

  /** Writing `on`: the value is cached and exactly one command goes out at
      once, the zone's on or off code, even when the value did not change. */
  lemma OnWrite(s: LightState, zone: Zone, v: bool)
    ensures Apply(s, zone, WriteOn(v)).state == LightState(v, s.level, s.colour)
    ensures Apply(s, zone, WriteOn(v)).actions
         == [Now(RfCmd(if v then OnCodes[zone] else OffCodes[zone], 0x00))]
  {
  }

  /** Writing the same `on` value twice sends its code twice: there is no change detection. */
  lemma RepeatedOnWriteResends(s: LightState, zone: Zone, v: bool)
    ensures AllWritable([WriteOn(v), WriteOn(v)])
    ensures Run(s, zone, [WriteOn(v), WriteOn(v)]).actions
         == [Now(PowerCmd(v, zone)), Now(PowerCmd(v, zone))]
  {
  }

  /** Writing level 0 turns the light off: one immediate off code and no brightness command. */
  lemma LevelZeroWrite(s: LightState, zone: Zone)
    ensures Apply(s, zone, WriteLevel(0)).state == LightState(false, 0, s.colour)
    ensures Apply(s, zone, WriteLevel(0)).actions == [Now(RfCmd(OffCodes[zone], 0x00))]
  {
  }

  /** Writing a positive level: an immediate on code, even when the light was
      already on, then the brightness command after 100 ms if the light was
      off or 80 ms if it was on; the light is on afterwards. */
  lemma LevelPositiveWrite(s: LightState, zone: Zone, v: int)
    requires v > 0
    ensures Apply(s, zone, WriteLevel(v)).state == LightState(true, v, s.colour)
    ensures Apply(s, zone, WriteLevel(v)).actions
         == [Now(RfCmd(OnCodes[zone], 0x00)),
             After(if s.on then 80 else 100, RfCmd(LevelCode, JsRound(v as real / 4.0)))]
  {
  }

  /** Writing a colour that is not white on zones 1 to 4: the zone's on-pulse
      at once, the hue command 100 ms later, and the light is on. */
  lemma HueWriteOnZone(s: LightState, zone: Zone, c: Colour)
    requires HueInRange(c) && c.rgb != WhiteRgb && zone != 0
    ensures Apply(s, zone, WriteColour(c)).state == LightState(true, s.level, c)
    ensures Apply(s, zone, WriteColour(c)).actions
         == [Now(RfCmd(OnCodes[zone], 0x00)), After(100, CssToCmd(c, zone))]
  {
  }

  /** Writing white, or any colour on the broadcast zone: exactly the encoded
      command at once, and `on` keeps its value. */
  lemma DirectColourWrite(s: LightState, zone: Zone, c: Colour)
    requires HueInRange(c) && (c.rgb == WhiteRgb || zone == 0)
    ensures Apply(s, zone, WriteColour(c)).state == LightState(s.on, s.level, c)
    ensures Apply(s, zone, WriteColour(c)).actions == [Now(CssToCmd(c, zone))]
  {
  }

  /** After any series of writes that ends with a level write, the light is
      on exactly when that level is not zero, and its level is that level. */
  lemma {:induction false} LastLevelDecidesPower(s: LightState, zone: Zone, ws: seq<Write>, v: int)
    requires AllWritable(ws)
    ensures AllWritable(ws + [WriteLevel(v)])
    ensures Run(s, zone, ws + [WriteLevel(v)]).state.on == (v != 0)
    ensures Run(s, zone, ws + [WriteLevel(v)]).state.level == v
  {
    RunAppend(s, zone, ws, WriteLevel(v));
  }
}
