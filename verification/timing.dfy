/** The one display mode the panel supports, reported to the video stack. */
module Timing {
  /** One timing parameter: the least, typical and greatest admissible value. */
  datatype TimingEntry = TimingEntry(min: nat, typ: nat, max: nat)

  datatype DisplayTiming = DisplayTiming(
    pixelclock: TimingEntry,
    hactive: TimingEntry,
    hfrontPorch: TimingEntry,
    hbackPorch: TimingEntry,
    hsyncLen: TimingEntry,
    vactive: TimingEntry,
    vfrontPorch: TimingEntry,
    vbackPorch: TimingEntry,
    vsyncLen: TimingEntry,
    flags: nat)

  /** A parameter that admits a single value. */
  predicate Fixed(e: TimingEntry)
  {
    e.min == e.typ == e.max
  }

  /** A timing that leaves nothing to negotiate: every parameter is fixed. */
  predicate SingleMode(t: DisplayTiming)
  {
    && Fixed(t.pixelclock) && Fixed(t.hactive) && Fixed(t.hfrontPorch) && Fixed(t.hbackPorch)
    && Fixed(t.hsyncLen) && Fixed(t.vactive) && Fixed(t.vfrontPorch) && Fixed(t.vbackPorch)
    && Fixed(t.vsyncLen)
  }

  function Exactly(v: nat): TimingEntry
  {
    TimingEntry(v, v, v)
  }

  /** default_timing: 720x1280 at a 54 MHz pixel clock. */
  const DEFAULT_TIMING: DisplayTiming := DisplayTiming(
    pixelclock := Exactly(54000000),
    hactive := Exactly(720),
    hfrontPorch := Exactly(20),
    hbackPorch := Exactly(20),
    hsyncLen := Exactly(2),
    vactive := Exactly(1280),
    vfrontPorch := Exactly(15),
    vbackPorch := Exactly(10),
    vsyncLen := Exactly(2),
    flags := 0)

  /**
   * ili9881c_panel_get_display_timing: the status and the record copied into
   * the caller's buffer. It reads no device state, so every call gives the same.
   */
  function GetDisplayTiming(): (r: (int, DisplayTiming))
    ensures r.0 == 0
    ensures SingleMode(r.1) && r.1.flags == 0
    ensures r.1.pixelclock.typ == 54000000
    ensures r.1.hactive.typ == 720 && r.1.vactive.typ == 1280
    ensures r.1.hfrontPorch.typ == 20 && r.1.hbackPorch.typ == 20 && r.1.hsyncLen.typ == 2
    ensures r.1.vfrontPorch.typ == 15 && r.1.vbackPorch.typ == 10 && r.1.vsyncLen.typ == 2
  {
    (0, DEFAULT_TIMING)
  }
}
