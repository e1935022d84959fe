/**
 * The collaborators of the ILI9881C panel driver: the MIPI-DSI transport, the
 * reset GPIO, the power regulator, the device-tree lookups and the delay
 * primitive. None of them is modelled in detail. Each call the driver makes
 * becomes one event appended to a trace, and each call that can fail takes
 * its return code from an environment fixed in advance, so that a failure can
 * be placed at any step.
 */
module Mipi {
  /** Opcodes of the MIPI Alliance Display Command Set used by the driver. */
  const DCS_EXIT_SLEEP_MODE: bv8 := 0x11
  const DCS_SET_DISPLAY_ON: bv8 := 0x29

  /** The errno value "no such entry"; a lookup of an absent property returns -ENOENT. */
  const ENOENT: int := 2

  /** Pixel formats a DSI peripheral can be configured for. */
  datatype PixelFormat = RGB888 | RGB666 | RGB666Packed | RGB565

  /** The DSI mode flags; a flag word is the set of flags it has set. */
  datatype ModeFlag =
    | Video | VideoBurst | VideoSyncPulse | VideoAutoVert | VideoHse | VideoHfp
    | VideoHbp | VideoHsa | VsyncFlush | EotPacket | ClockNonContinuous | Lpm

  /** One call from the driver to the outside world. */
  datatype Event =
    | DcsWrite(payload: seq<bv8>)  // mipi_dsi_dcs_write_buffer
    | Attach                       // mipi_dsi_attach
    | ExitSleepMode                // mipi_dsi_dcs_exit_sleep_mode
    | SetDisplayOn                 // mipi_dsi_dcs_set_display_on
    | Delay(ms: nat)               // mdelay
    | ResetGpio(high: bool)        // dm_gpio_set_value on the reset line
    | RegulatorEnable              // regulator_set_enable(reg, true)
    | SupplyLookup                 // device_get_supply_regulator("power-supply")
    | ResetGpioRequest             // gpio_request_by_name("reset-gpios")
    | BacklightLookup              // uclass_get_device_by_phandle("backlight")

  /**
   * The return codes the outside world gives. The lookups, the regulator
   * enable, attach, exit-sleep and display-on are made at most once per
   * callback and get one answer each; a buffer write gets the answer that
   * `write` gives for the position in the trace at which it is issued.
   */
  datatype Env = Env(
    supplyLookup: int,
    resetGpioRequest: int,
    backlightLookup: int,
    regulatorEnable: int,
    attach: int,
    exitSleepMode: int,
    setDisplayOn: int,
    write: nat -> int)

  /** Appending in two steps appends the concatenation; stated once so that traces built step by step can be compared cheaply. */
  lemma AppendAssoc<T>(a: seq<T>, b: seq<T>, c: seq<T>)
    ensures (a + b) + c == a + (b + c)
  {
  }

  /** The first two bytes of a buffer, as a sequence. */
  lemma PrefixPair(buf: array<bv8>)
    requires buf.Length >= 2
    ensures buf[..2] == [buf[0], buf[1]]
  {
  }

  /** The outside world as the driver sees it: the trace of calls made so far. */
  class Host {
    const env: Env
    var trace: seq<Event>

    constructor (env: Env)
      ensures this.env == env && trace == []
    {
      this.env := env;
      trace := [];
    }

    method DcsWriteBuffer(payload: seq<bv8>) returns (ret: int)
      modifies this
      ensures trace == old(trace) + [DcsWrite(payload)]
      ensures ret == env.write(|old(trace)|)
    {
      ret := env.write(|trace|);
      trace := trace + [DcsWrite(payload)];
    }

    method DsiAttach() returns (ret: int)
      modifies this
      ensures trace == old(trace) + [Attach] && ret == env.attach
    {
      trace := trace + [Attach];
      ret := env.attach;
    }

    method DcsExitSleepMode() returns (ret: int)
      modifies this
      ensures trace == old(trace) + [ExitSleepMode] && ret == env.exitSleepMode
    {
      trace := trace + [ExitSleepMode];
      ret := env.exitSleepMode;
    }

    method DcsSetDisplayOn() returns (ret: int)
      modifies this
      ensures trace == old(trace) + [SetDisplayOn] && ret == env.setDisplayOn
    {
      trace := trace + [SetDisplayOn];
      ret := env.setDisplayOn;
    }

    method MDelay(ms: nat)
      modifies this
      ensures trace == old(trace) + [Delay(ms)]
    {
      trace := trace + [Delay(ms)];
    }

    method GpioSetValue(high: bool)
      modifies this
      ensures trace == old(trace) + [ResetGpio(high)]
    {
      trace := trace + [ResetGpio(high)];
    }

    method RegulatorSetEnable() returns (ret: int)
      modifies this
      ensures trace == old(trace) + [RegulatorEnable] && ret == env.regulatorEnable
    {
      trace := trace + [RegulatorEnable];
      ret := env.regulatorEnable;
    }

    method GetSupplyRegulator() returns (ret: int)
      modifies this
      ensures trace == old(trace) + [SupplyLookup] && ret == env.supplyLookup
    {
      trace := trace + [SupplyLookup];
      ret := env.supplyLookup;
    }

    method RequestResetGpio() returns (ret: int)
      modifies this
      ensures trace == old(trace) + [ResetGpioRequest] && ret == env.resetGpioRequest
    {
      trace := trace + [ResetGpioRequest];
      ret := env.resetGpioRequest;
    }

    method GetBacklight() returns (ret: int)
      modifies this
      ensures trace == old(trace) + [BacklightLookup] && ret == env.backlightLookup
    {
      trace := trace + [BacklightLookup];
      ret := env.backlightLookup;
    }
  }
}
