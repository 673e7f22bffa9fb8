/** A miLight device object: the cached property values that writes
    overwrite, the flag that sendProperties sets, and the sends the writes
    issue. Its methods follow the write path of the adapter step by step and
    are proved to agree with the value-level specification in Sequencing. */
module Devices {
  import opened Encoder
  import opened Sequencing

  /** The properties of a dimmable colour light. */
  datatype PropName = OnProp | LevelProp | ColourProp

  class Device {
    /** The zone from the device's configuration; it never changes. */
    const zone: Zone
    var on: bool
    var level: int
    var colour: Colour
    /** Set by every send; nothing reads or clears it. */
    var recentlyUpdated: bool
    /** Every send the writes have issued so far, in issue order. */
    var log: seq<Action>

    /** The cached property values as one value. */
    function State(): LightState
      reads this
    {
      LightState(on, level, colour)
    }

    constructor (zone: Zone)
      ensures this.zone == zone && State() == Initial
      ensures log == [] && !recentlyUpdated
    {
      this.zone := zone;
      on, level, colour := false, 0, DefaultColour;
      recentlyUpdated, log := false, [];
    }

    /** sendProperties, without the socket: the datagram for the command is
        built and the device is marked as recently updated. */
    method SendProperties(cmd: Cmd) returns (frame: seq<int>)
      modifies this`recentlyUpdated
      ensures frame == Frame(cmd) && |frame| == 3 && frame[2] == Trailer
      ensures ByteCmd(cmd) ==> ParseFrame(frame) == cmd
      ensures recentlyUpdated
      ensures State() == old(State()) && log == old(log)
    {
      frame := Frame(cmd);
      recentlyUpdated := true;
    }

    /** A send made at once. */
    method Emit(cmd: Cmd)
      modifies this`recentlyUpdated, this`log
      ensures recentlyUpdated && log == old(log) + [Now(cmd)]
      ensures State() == old(State())
    {
      var _ := SendProperties(cmd);
      log := log + [Now(cmd)];
    }

    /** A send handed to a timer of `ms` milliseconds. */
    method Schedule(ms: int, cmd: Cmd)
      modifies this`log
      ensures log == old(log) + [After(ms, cmd)]
    {
      log := log + [After(ms, cmd)];
    }

    /** notifyStateChanged: when `changed` holds, the on or off code of the
        zone that matches the cached `on` goes out at once. */
    method NotifyStateChanged(changed: bool)
      modifies this`recentlyUpdated, this`log
      ensures log == old(log) + (if changed then [Now(PowerCmd(on, zone))] else [])
      ensures recentlyUpdated == (changed || old(recentlyUpdated))
      ensures State() == old(State())
    {
      if changed {
        Emit(RfCmd(if on == false then OffCodes[zone] else OnCodes[zone], 0x00));
      }
    }

    /** setValue on the `on` property: caches the value and notifies with
        the change flag fixed at 1, so the code is sent even for an unchanged value. */
    method SetOn(v: bool)
      modifies this
      ensures State() == Power(old(State()), zone, v).state
      ensures log == old(log) + Power(old(State()), zone, v).actions
      ensures recentlyUpdated
    {
      // The change is computed but not passed on: the flag given is always true.
      var changed := on != v;
      on := v;
      NotifyStateChanged(true);
    }

    /** notifyLvlColChanged: runs the sequencer for the property that was just
        cached; for any other property it only warns. */
    method NotifyLvlColChanged(name: PropName)
      requires name == ColourProp ==> HueInRange(colour)
      modifies this
      ensures name == LevelProp ==>
                State() == Apply(old(State()), zone, WriteLevel(old(level))).state &&
                log == old(log) + Apply(old(State()), zone, WriteLevel(old(level))).actions &&
                recentlyUpdated
      ensures name == ColourProp ==>
                State() == Apply(old(State()), zone, WriteColour(old(colour))).state &&
                log == old(log) + Apply(old(State()), zone, WriteColour(old(colour))).actions &&
                recentlyUpdated
      ensures name == OnProp ==> unchanged(this)
    {
      match name
      case ColourProp =>
        var cmd := CssToCmd(colour, zone);
        if IsHue(cmd) && zone != 0 {
          SetOn(true);
          Schedule(PulseDelay, cmd);
        } else {
          Emit(cmd);
        }
      case LevelProp =>
        if 0 == level {
          SetOn(false);
        } else {
          var cmd := LevelToCmd(level);
          if on == false {
            SetOn(true);
            Schedule(PulseDelay, cmd);
          } else {
            SetOn(true);
            Schedule(OnDelay, cmd);
          }
        }
      case OnProp =>
    }

    /** setValue on any property: caches the new value, then notifies. Every
        write leaves the device marked as recently updated. */
    method SetValue(w: Write)
      requires Writable(w)
      modifies this
      ensures State() == Apply(old(State()), zone, w).state
      ensures log == old(log) + Apply(old(State()), zone, w).actions
      ensures recentlyUpdated
    {
      match w
      case WriteOn(v) =>
        SetOn(v);
      case WriteLevel(v) =>
        level := v;
        NotifyLvlColChanged(LevelProp);
      case WriteColour(c) =>
        colour := c;
        NotifyLvlColChanged(ColourProp);
    }
  }
}
