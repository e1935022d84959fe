/**
 * The ILI9881C panel device: its three lifecycle callbacks (parse the
 * hardware description, probe, enable the backlight) and the executor the
 * last one runs. Each callback is a method on the device that appends its
 * calls to the host's trace and updates the device's private and platform
 * data; a pure function gives the events and status of each callback, and the
 * lemmas below state what the driver promises about them.
 */
module Panel {
  import opened Wrappers
  import opened Mipi
  import opened Commands

  /** What one callback does: the events it appends and the status it returns. */
  datatype Run = Run(events: seq<Event>, ret: int)

  // ----- enable_backlight -----

  /** All steps of a bring-up that succeeds, around the executor's own events. */
  function BringUpSteps(sequence: seq<Event>): seq<Event>
  {
    [Attach] + sequence + [ExitSleepMode, Delay(125), SetDisplayOn, Delay(125)]
  }

  /**
   * The calls enable_backlight makes once the executor has run, up to and
   * including the first that fails, and the status they give.
   */
  function WakeSteps(env: Env): (r: Run)
    ensures r.ret == 0 <==> env.exitSleepMode == 0 && env.setDisplayOn == 0
  {
    if env.exitSleepMode != 0 then Run([ExitSleepMode], env.exitSleepMode)
    else if env.setDisplayOn != 0 then Run([ExitSleepMode] + [Delay(125)] + [SetDisplayOn], env.setDisplayOn)
    else Run([ExitSleepMode] + [Delay(125)] + [SetDisplayOn] + [Delay(125)], 0)
  }

  /**
   * ili9881c_panel_enable_backlight started at trace position `pos`: attach,
   * then (unless attach fails) the executor and the wake-up steps. The
   * executor's outcome is not consulted.
   */
  function EnableBacklightRun(table: seq<Instr>, env: Env, pos: nat): (r: Run)
    ensures r.ret == 0 <==> env.attach >= 0 && env.exitSleepMode == 0 && env.setDisplayOn == 0
  {
    if env.attach < 0 then Run([Attach], env.attach)
    else
      var wake := WakeSteps(env);
      Run([Attach] + InitSequenceEvents(table, env.write, pos + 1) + wake.events, wake.ret)
  }

  /**
   * A run is always a prefix of the complete bring-up: a failing step only
   * cuts it short, and a status of 0 means every step was issued.
   */
  lemma EnableBacklightTruncates(table: seq<Instr>, env: Env, pos: nat)
    ensures var r := EnableBacklightRun(table, env, pos);
            var steps := BringUpSteps(InitSequenceEvents(table, env.write, pos + 1));
            && r.events <= steps
            && (r.ret == 0 <==> r.events == steps)
  {
  }

  /** A failed attach is returned at once; nothing else is issued. */
  lemma EnableBacklightAttachFails(table: seq<Instr>, env: Env, pos: nat)
    requires env.attach < 0
    ensures EnableBacklightRun(table, env, pos) == Run([Attach], env.attach)
  {
  }

  /**
   * A failed exit-sleep is returned after the executor has run, and neither
   * the 125 ms wait nor display-on follows.
   */
  lemma EnableBacklightExitSleepFails(table: seq<Instr>, env: Env, pos: nat)
    requires env.attach >= 0 && env.exitSleepMode != 0
    ensures var r := EnableBacklightRun(table, env, pos);
            && r.ret == env.exitSleepMode
            && r.events == [Attach] + InitSequenceEvents(table, env.write, pos + 1) + [ExitSleepMode]
            && SetDisplayOn !in r.events && Delay(125) !in r.events
  {
    InitSequenceEventKinds(table, env.write, pos + 1);
  }

  /** A failed display-on is returned after it is issued, without the final wait. */
  lemma EnableBacklightDisplayOnFails(table: seq<Instr>, env: Env, pos: nat)
    requires env.attach >= 0 && env.exitSleepMode == 0 && env.setDisplayOn != 0
    ensures var r := EnableBacklightRun(table, env, pos);
            var steps := BringUpSteps(InitSequenceEvents(table, env.write, pos + 1));
            && r.ret == env.setDisplayOn
            && r.events == steps[..|steps| - 1]
  {
  }

  /**
   * The executor's outcome never changes the status: two environments that
   * differ only in how buffer writes are answered give the same status, and
   * the same events after the executor's.
   */
  lemma EnableBacklightIgnoresSequence(table: seq<Instr>, env: Env, write': nat -> int, pos: nat)
    ensures var r := EnableBacklightRun(table, env, pos);
            var r' := EnableBacklightRun(table, env.(write := write'), pos);
            var n := |InitSequenceEvents(table, env.write, pos + 1)|;
            var n' := |InitSequenceEvents(table, write', pos + 1)|;
            && r.ret == r'.ret
            && (env.attach >= 0 ==> r.events[1 + n..] == r'.events[1 + n'..])
  {
  }

  // ----- probe -----

  /** One reset pulse: drive the line low for 20 ms, then high for 100 ms. */
  function ResetPulse(): seq<Event>
  {
    [ResetGpio(false)] + [Delay(20)] + [ResetGpio(true)] + [Delay(100)]
  }

  /** `n` copies of `s`, one after the other. */
  function Repeat(s: seq<Event>, n: nat): seq<Event>
  {
    if n == 0 then [] else Repeat(s, n - 1) + s
  }

  /** The reset sequence of probe: three pulses, then a 1000 ms settle delay. */
  function ResetSequence(): seq<Event>
  {
    Repeat(ResetPulse(), 3) + [Delay(1000)]
  }

  /** Each event occurs in n copies of s n times as often as in s. */
  lemma {:induction false} RepeatCount(s: seq<Event>, n: nat, e: Event)
    ensures multiset(Repeat(s, n))[e] == n * multiset(s)[e]
  {
    if n > 0 {
      RepeatCount(s, n - 1, e);
      var c := multiset(s)[e];
      calc {
        multiset(Repeat(s, n))[e];
        (multiset(Repeat(s, n - 1)) + multiset(s))[e];
        (n - 1) * c + c;
        { assert (n - 1) * c + c == n * c; }
        n * c;
      }
    }
  }

  /**
   * The reset sequence is exactly three low/high pulses with 20 ms and 100 ms
   * holds, in that order, then one 1000 ms delay; the line is driven low
   * three times and high three times, and ends high.
   */
  lemma ResetSequenceShape()
    ensures ResetSequence() == ResetPulse() + ResetPulse() + ResetPulse() + [Delay(1000)]
    ensures multiset(ResetSequence())[ResetGpio(false)] == 3
    ensures multiset(ResetSequence())[ResetGpio(true)] == 3
    ensures multiset(ResetSequence())[Delay(1000)] == 1
  {
    var pulse := ResetPulse();
    assert Repeat(pulse, 1) == pulse by {
      assert [] + pulse == pulse;
    }
    RepeatCount(pulse, 3, ResetGpio(false));
    RepeatCount(pulse, 3, ResetGpio(true));
    RepeatCount(pulse, 3, Delay(1000));
  }

  /** The DSI settings probe gives the platform data. */
  const PANEL_LANES: nat := 2
  const PANEL_FORMAT: PixelFormat := RGB888
  const PANEL_MODE_FLAGS: set<ModeFlag> := {Video, VideoSyncPulse, Lpm}

  /**
   * ili9881c_panel_probe, for a build with or without regulator support and
   * a device whose regulator handle is or is not set. Only the regulator can
   * fail; the reset sequence is issued whatever the reset line's state.
   */
  function ProbeRun(dmRegulator: bool, regulator: bool, env: Env): (r: Run)
    ensures r.ret == 0 <==> !(dmRegulator && regulator) || env.regulatorEnable == 0
    ensures r.ret != 0 ==> r.events == [RegulatorEnable] && r.ret == env.regulatorEnable
    ensures r.ret == 0 ==>
              r.events == (if dmRegulator && regulator then [RegulatorEnable] else []) + ResetSequence()
  {
    if dmRegulator && regulator then
      if env.regulatorEnable != 0 then Run([RegulatorEnable], env.regulatorEnable)
      else Run([RegulatorEnable] + ResetSequence(), 0)
    else Run(ResetSequence(), 0)
  }

  // ----- ofdata_to_platdata -----

  /** A lookup status the driver accepts for an optional resource: found, or absent. */
  predicate Tolerated(ret: int)
  {
    ret == 0 || ret == -ENOENT
  }

  /**
   * What parsing the hardware description does: its events and status, and
   * the value it leaves in each handle of the private data (None where the
   * lookup is not made and the handle keeps its value). A handle is set
   * exactly when its lookup returns 0.
   */
  datatype Parse = Parse(events: seq<Event>, ret: int, reg: Option<bool>, reset: Option<bool>, backlight: Option<bool>)

  /**
   * ili9881c_panel_ofdata_to_platdata. "Not found" is tolerated for the
   * regulator (looked up only with regulator support) and the reset GPIO;
   * any other error of theirs, and every error of the backlight lookup, is
   * returned.
   */
  function OfdataRun(dmRegulator: bool, env: Env): (r: Parse)
    ensures r.ret == 0 <==> (!dmRegulator || Tolerated(env.supplyLookup))
                            && Tolerated(env.resetGpioRequest) && env.backlightLookup == 0
    ensures r.ret == -ENOENT ==> env.backlightLookup == -ENOENT
    ensures r.ret == 0 ==> r.backlight == Some(true)
    ensures (SupplyLookup in r.events) == dmRegulator
  {
    var supply := if dmRegulator then [SupplyLookup] else [];
    var reg := if dmRegulator then Some(env.supplyLookup == 0) else None;
    if dmRegulator && !Tolerated(env.supplyLookup) then
      Parse(supply, env.supplyLookup, reg, None, None)
    else if !Tolerated(env.resetGpioRequest) then
      Parse(supply + [ResetGpioRequest], env.resetGpioRequest, reg, Some(false), None)
    else
      Parse(supply + [ResetGpioRequest, BacklightLookup], env.backlightLookup,
            reg, Some(env.resetGpioRequest == 0), Some(env.backlightLookup == 0))
  }

  /** A regulator error other than "not found" is returned before any other lookup. */
  lemma OfdataSupplyFatal(env: Env)
    requires !Tolerated(env.supplyLookup)
    ensures var r := OfdataRun(true, env);
            r.ret == env.supplyLookup && r.events == [SupplyLookup] && r.reg == Some(false)
  {
  }

  /** A reset-GPIO error other than "not found" is returned before the backlight lookup. */
  lemma OfdataResetFatal(dmRegulator: bool, env: Env)
    requires !dmRegulator || Tolerated(env.supplyLookup)
    requires !Tolerated(env.resetGpioRequest)
    ensures var r := OfdataRun(dmRegulator, env);
            r.ret == env.resetGpioRequest && BacklightLookup !in r.events && r.backlight == None
  {
  }

  /** Every backlight error, "not found" included, is returned. */
  lemma OfdataBacklightFatal(dmRegulator: bool, env: Env)
    requires !dmRegulator || Tolerated(env.supplyLookup)
    requires Tolerated(env.resetGpioRequest)
    requires env.backlightLookup != 0
    ensures OfdataRun(dmRegulator, env).ret == env.backlightLookup
  {
  }

  // ----- the callbacks in sequence -----

  /**
   * A description with neither a regulator nor a reset GPIO but with a
   * backlight parses successfully and leaves both optional handles unset;
   * probe then skips the regulator, issues exactly the reset sequence and
   * succeeds.
   */
  lemma MissingOptionalResources(dmRegulator: bool, env: Env)
    requires env.supplyLookup == -ENOENT && env.resetGpioRequest == -ENOENT
    requires env.backlightLookup == 0
    ensures var parse := OfdataRun(dmRegulator, env);
            && parse.ret == 0
            && parse.reg.GetOr(false) == false && parse.reset == Some(false)
            && ProbeRun(dmRegulator, parse.reg.GetOr(false), env) == Run(ResetSequence(), 0)
  {
  }

  /** The device: its private data, its DSI platform data and the host it talks to. */
  class Ili9881cPanel {
    const host: Host
    /** The command table the executor sends (ili9881c_init_data_2 in the shipped driver). */
    const table: seq<Instr>
    /** Whether the build has regulator support. */
    const dmRegulator: bool

    // ili9881c_panel_priv: whether each handle is set
    var reg: bool
    var reset: bool
    var backlight: bool

    // mipi_dsi_panel_plat
    var lanes: nat
    var format: PixelFormat
    var modeFlags: set<ModeFlag>

    /** The device as the device model allocates it: all data zeroed (RGB888 is format 0). */
    constructor (host: Host, table: seq<Instr>, dmRegulator: bool)
      ensures this.host == host && this.table == table && this.dmRegulator == dmRegulator
      ensures !reg && !reset && !backlight
      ensures lanes == 0 && format == RGB888 && modeFlags == {}
    {
      this.host := host;
      this.table := table;
      this.dmRegulator := dmRegulator;
      reg, reset, backlight := false, false, false;
      lanes, format, modeFlags := 0, RGB888, {};
    }

    /** ili9881c_switch_page */
    method SwitchPage(page: bv8) returns (ret: int)
      modifies host
      ensures host.trace == old(host.trace) + [DcsWrite(SwitchPagePayload(page))]
      ensures ret == host.env.write(|old(host.trace)|)
    {
      ret := host.DcsWriteBuffer(SwitchPagePayload(page));
    }

    /** ili9881c_send_cmd_data */
    method SendCmdData(cmd: bv8, data: bv8) returns (ret: int)
      modifies host
      ensures host.trace == old(host.trace) + [DcsWrite(CmdDataPayload(cmd, data))]
      ensures ret == host.env.write(|old(host.trace)|)
    {
      ret := host.DcsWriteBuffer(CmdDataPayload(cmd, data));
    }

    /** ili9881c_init_sequence: the table in order, stopping at the first failed write. */
    method InitSequence()
      modifies host
      ensures host.trace == old(host.trace) + InitSequenceEvents(table, host.env.write, |old(host.trace)|)
    {
      var buf := new bv8[128](_ => 0);
      var ret: int;
      ghost var pos := |host.trace|;
      var i := 0;
      while i < |table|
        invariant 0 <= i <= |table|
        invariant host.trace == old(host.trace) + TableWrites(table[..i])
        invariant forall p :: pos <= p < pos + i ==> host.env.write(p) >= 0
      {
        var instr := table[i];
        if instr.cmd == SWITCH_PAGE {
          ret := SwitchPage(instr.data);
        } else {
          ret := SendCmdData(instr.cmd, instr.data);
        }
        TableWritesSnoc(table, i);
        AppendAssoc(old(host.trace), TableWrites(table[..i]), [DcsWrite(InstrPayload(instr))]);
        if ret < 0 {
          InitSequenceStopsAtFailure(table, host.env.write, pos, i);
          return;
        }
        i := i + 1;
      }
      assert table[..i] == table;
      InitSequenceAllSent(table, host.env.write, pos);
      ghost var sent := host.trace;
      ret := SwitchPage(0);
      ghost var trailer := [DcsWrite(SwitchPagePayload(0))];
      buf[0] := DCS_EXIT_SLEEP_MODE;
      buf[1] := 0;
      PrefixPair(buf);
      ret := host.DcsWriteBuffer(buf[..2]);
      AppendAssoc(sent, trailer, [DcsWrite([DCS_EXIT_SLEEP_MODE, 0])]);
      trailer := trailer + [DcsWrite([DCS_EXIT_SLEEP_MODE, 0])];
      host.MDelay(120);
      AppendAssoc(sent, trailer, [Delay(120)]);
      trailer := trailer + [Delay(120)];
      buf[0] := DCS_SET_DISPLAY_ON;
      PrefixPair(buf);
      ret := host.DcsWriteBuffer(buf[..2]);
      AppendAssoc(sent, trailer, [DcsWrite([DCS_SET_DISPLAY_ON, 0])]);
      trailer := trailer + [DcsWrite([DCS_SET_DISPLAY_ON, 0])];
      AppendAssoc(old(host.trace), TableWrites(table), Trailer());
    }

    /** ili9881c_panel_enable_backlight */
    method EnableBacklight() returns (ret: int)
      modifies host
      ensures var r := EnableBacklightRun(table, host.env, |old(host.trace)|);
              host.trace == old(host.trace) + r.events && ret == r.ret
    {
      ghost var before := host.trace;
      ret := host.DsiAttach();
      if ret < 0 {
        return;
      }
      InitSequence();
      ghost var sequenced := [Attach] + InitSequenceEvents(table, host.env.write, |before| + 1);
      AppendAssoc(before, [Attach], InitSequenceEvents(table, host.env.write, |before| + 1));
      ghost var wake := WakeSteps(host.env);
      AppendAssoc(before, sequenced, wake.events);
      ghost var mid := before + sequenced;
      ret := host.DcsExitSleepMode();
      if ret != 0 {
        return;
      }
      host.MDelay(125);
      AppendAssoc(mid, [ExitSleepMode], [Delay(125)]);
      ret := host.DcsSetDisplayOn();
      AppendAssoc(mid, [ExitSleepMode] + [Delay(125)], [SetDisplayOn]);
      if ret != 0 {
        return;
      }
      host.MDelay(125);
      AppendAssoc(mid, [ExitSleepMode] + [Delay(125)] + [SetDisplayOn], [Delay(125)]);
      ret := 0;
    }

    /** ili9881c_panel_ofdata_to_platdata */
    method OfdataToPlatdata() returns (ret: int)
      modifies host, this`reg, this`reset, this`backlight
      ensures var r := OfdataRun(dmRegulator, host.env);
              && host.trace == old(host.trace) + r.events && ret == r.ret
              && reg == r.reg.GetOr(old(reg))
              && reset == r.reset.GetOr(old(reset))
              && backlight == r.backlight.GetOr(old(backlight))
    {
      if dmRegulator {
        ret := host.GetSupplyRegulator();
        reg := ret == 0;
        if ret != 0 && ret != -ENOENT {
          return;
        }
      }
      ret := host.RequestResetGpio();
      reset := ret == 0;
      if ret != 0 {
        if ret != -ENOENT {
          return;
        }
      }
      ret := host.GetBacklight();
      backlight := ret == 0;
      if ret != 0 {
        return;
      }
      ret := 0;
    }

    /** ili9881c_panel_probe */
    method Probe() returns (ret: int)
      modifies host, this`lanes, this`format, this`modeFlags
      ensures var r := ProbeRun(dmRegulator, reg, host.env);
              host.trace == old(host.trace) + r.events && ret == r.ret
      ensures ret == 0 ==> lanes == PANEL_LANES && format == PANEL_FORMAT && modeFlags == PANEL_MODE_FLAGS
      ensures ret != 0 ==> lanes == old(lanes) && format == old(format) && modeFlags == old(modeFlags)
    {
      ghost var power := if dmRegulator && reg then [RegulatorEnable] else [];
      if dmRegulator && reg {
        ret := host.RegulatorSetEnable();
        if ret != 0 {
          return;
        }
      }
      ghost var powered := host.trace;
      for ii := 0 to 3
        invariant host.trace == powered + Repeat(ResetPulse(), ii)
      {
        ghost var done := host.trace;
        host.GpioSetValue(false);
        host.MDelay(20);
        AppendAssoc(done, [ResetGpio(false)], [Delay(20)]);
        host.GpioSetValue(true);
        AppendAssoc(done, [ResetGpio(false)] + [Delay(20)], [ResetGpio(true)]);
        host.MDelay(100);
        AppendAssoc(done, [ResetGpio(false)] + [Delay(20)] + [ResetGpio(true)], [Delay(100)]);
        AppendAssoc(powered, Repeat(ResetPulse(), ii), ResetPulse());
      }
      host.MDelay(1000);
      AppendAssoc(powered, Repeat(ResetPulse(), 3), [Delay(1000)]);
      AppendAssoc(old(host.trace), power, ResetSequence());
      lanes := PANEL_LANES;
      format := PANEL_FORMAT;
      modeFlags := PANEL_MODE_FLAGS;
      ret := 0;
    }
  }
}
