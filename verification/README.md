# ILI9881C MIPI-DSI panel driver — a Dafny model

This project models the U-Boot driver for panels built on the Ilitek
ILI9881C controller (`drivers/video/ilitek-ili9881c.c`). The driver has four
parts:

- **Parse the hardware description** (`ofdata_to_platdata`). It looks up the
  power-supply regulator, the reset GPIO and the backlight device. A missing
  regulator or reset line is tolerated. Any other error, and any backlight
  error, is returned.
- **Probe.** It switches the regulator on when there is one. It then pulses
  the reset line low and high three times and waits 1000 ms. Finally it
  records the DSI link settings in the platform data: 2 lanes, RGB888, and
  the video, sync-pulse and low-power flags.
- **Enable the backlight.** It attaches to the DSI host and runs the
  vendor init sequence. It then leaves sleep mode, waits 125 ms, switches
  the display on and waits another 125 ms. A failing step ends the
  callback with that step's status. The init sequence's own outcome is
  ignored.
- **Get the display timing.** It returns a fixed 720x1280 mode at a
  54 MHz pixel clock.

The init-sequence executor writes the command table entry by entry:

- An entry whose command byte is 0xFF selects a register page with the
  4-byte buffer `FF 98 81 page`.
- Any other entry writes its data byte to its register with a 2-byte
  buffer.
- It stops at the first write that fails.
- When every entry was written, it switches back to page 0, sends
  exit-sleep, waits 120 ms and sends display-on. The results of these
  trailer writes are ignored.

Everything the driver does to the outside world is modelled as an event
appended to a trace:

- DSI buffer writes and the DSI/DCS calls;
- delays;
- GPIO levels;
- regulator and resource lookups.

The outside world's answers come from an environment record `Env`:

- There is one status for each call that a callback makes at most once.
- A buffer write is answered by a function of the write's position in the
  trace. Two runs that differ only in how their writes are answered can
  therefore be compared.

Modules:

- `Wrappers`: the `Option` type.
- `Mipi`: DCS constants, pixel formats, DSI mode flags, events, the
  environment, and the `Host` class. `Host` owns the trace and performs
  each external call.
- `Commands`: command-table entries, their buffers and decoding, and the
  executor's run as a function of the table and the write answers.
- `Timing`: the display-timing record and its fixed value.
- `Panel`: the device class `Ili9881cPanel`. Its private data is whether
  each of the three handles is set. Its platform data is the lane count,
  format and mode flags. It has one method per callback. Each method is
  proved equal to a pure run function, and the driver's promises are
  proved about those functions.

Constants assumed from outside this file:

- `-ENOENT` is -2.
- `MIPI_DCS_EXIT_SLEEP_MODE` is 0x11 and `MIPI_DCS_SET_DISPLAY_ON` is 0x29,
  as in the MIPI Display Command Set.
- `RGB888` is the pixel format whose value is 0, so zero-allocated platform
  data already holds it.

`CONFIG_DM_REGULATOR` is the panel's `dmRegulator` constant.

## Model

| member | source | states |
|---|---|---|
| Commands.InstrPayload | drivers/video/ilitek-ili9881c.c:32-51 | an entry becomes a 4-byte buffer exactly when its command is the page-switch byte 0xFF, and a 2-byte buffer otherwise; the buffer starts with the command and ends with the data byte |
| Commands.PayloadCodec | drivers/video/ilitek-ili9881c.c:32-51 | a buffer decodes to an entry if and only if it is that entry's buffer, so page switches and register writes are never confused |
| Commands.InstrPayloadInjective | drivers/video/ilitek-ili9881c.c:80-84 | two different table entries never produce the same buffer |
| Commands.TableWritesAt | drivers/video/ilitek-ili9881c.c:77-84 | the j-th write of the table loop is the buffer of entry j |
| Commands.FirstFailure | drivers/video/ilitek-ili9881c.c:77-88 | the index it gives is the first entry whose write returns a negative status: every earlier write succeeded, and it is at most the table length |
| Commands.InitSequenceEvents | drivers/video/ilitek-ili9881c.c:67-100 | one executor run issues at most one write per entry plus the four trailer events |
| Commands.InitSequenceAllSent | drivers/video/ilitek-ili9881c.c:77-97 | when no write fails, every entry is written in order, followed by the page-0 switch, exit-sleep, the 120 ms delay and display-on |
| Commands.InitSequenceStopsAtFailure | drivers/video/ilitek-ili9881c.c:85-88 | when entry i is the first to fail, the run is exactly the writes of entries 0..i, with no trailer |
| Commands.InitSequenceCompletes | drivers/video/ilitek-ili9881c.c:85-97 | the trailer is sent if and only if every entry's write succeeds |
| Commands.InitSequenceSpellsTable | drivers/video/ilitek-ili9881c.c:77-84 | the run's first events are buffer writes that decode, in order, to the table entries |
| Commands.InitSequenceEventKinds | drivers/video/ilitek-ili9881c.c:67-100 | the executor issues only buffer writes and the 120 ms delay |
| Commands.InitData2Runs | drivers/video/ilitek-ili9881c.c:61-97 | the shipped one-entry table gives `B2 10`, `FF 98 81 00`, `11 00`, 120 ms, `29 00`, or only `B2 10` when that write fails |
| Panel.Ili9881cPanel.SwitchPage | drivers/video/ilitek-ili9881c.c:32-40 | appends one write of `FF 98 81 page` and returns its status |
| Panel.Ili9881cPanel.SendCmdData | drivers/video/ilitek-ili9881c.c:42-51 | appends one write of `cmd data` and returns its status |
| Panel.Ili9881cPanel.InitSequence | drivers/video/ilitek-ili9881c.c:67-100 | the loop over the table and the trailer append exactly the executor's run |
| Panel.WakeSteps | drivers/video/ilitek-ili9881c.c:115-127 | the wake-up steps succeed if and only if both exit-sleep and display-on return 0 |
| Panel.EnableBacklightRun | drivers/video/ilitek-ili9881c.c:102-128 | enabling returns 0 if and only if attach is non-negative and exit-sleep and display-on both return 0 |
| Panel.EnableBacklightTruncates | drivers/video/ilitek-ili9881c.c:109-127 | a run is always a prefix of the full bring-up, and its status is 0 exactly when it is the full bring-up |
| Panel.EnableBacklightAttachFails | drivers/video/ilitek-ili9881c.c:109-111 | a failed attach is returned with nothing else issued |
| Panel.EnableBacklightExitSleepFails | drivers/video/ilitek-ili9881c.c:115-119 | a failed exit-sleep is returned after the executor, with no 125 ms wait and no display-on |
| Panel.EnableBacklightDisplayOnFails | drivers/video/ilitek-ili9881c.c:121-123 | a failed display-on is returned without the final 125 ms wait |
| Panel.EnableBacklightIgnoresSequence | drivers/video/ilitek-ili9881c.c:113 | the executor's outcome never changes the status, nor the events after the executor |
| Panel.Ili9881cPanel.EnableBacklight | drivers/video/ilitek-ili9881c.c:102-128 | the callback appends exactly the events of the enable run and returns its status |
| Panel.RepeatCount | drivers/video/ilitek-ili9881c.c:184-192 | a loop body repeated n times issues each event n times as often as the body does |
| Panel.ResetSequenceShape | drivers/video/ilitek-ili9881c.c:182-193 | the reset is three low-20 ms/high-100 ms pulses and one 1000 ms delay; the line is driven low three times and high three times |
| Panel.ProbeRun | drivers/video/ilitek-ili9881c.c:169-202 | probe fails only when there is regulator support, a regulator handle, and enabling it fails; it then returns that status after the single enable call; otherwise it issues the optional enable and then the reset sequence |
| Panel.Ili9881cPanel.Probe | drivers/video/ilitek-ili9881c.c:169-202 | the callback appends exactly the probe run; on success it sets 2 lanes, RGB888 and the video, sync-pulse and low-power flags, and on failure it leaves the platform data unchanged |
| Panel.OfdataRun | drivers/video/ilitek-ili9881c.c:137-167 | parsing succeeds if and only if the regulator lookup (when made) and the reset lookup succeed or report "not found" and the backlight lookup succeeds; a "not found" status can only come from the backlight; success leaves the backlight handle set; the regulator is looked up exactly when regulator support is built in |
| Panel.OfdataSupplyFatal | drivers/video/ilitek-ili9881c.c:142-149 | a regulator error other than "not found" is returned before any other lookup |
| Panel.OfdataResetFatal | drivers/video/ilitek-ili9881c.c:151-157 | a reset-GPIO error other than "not found" is returned before the backlight lookup |
| Panel.OfdataBacklightFatal | drivers/video/ilitek-ili9881c.c:159-164 | every backlight error, "not found" included, is returned |
| Panel.Ili9881cPanel.OfdataToPlatdata | drivers/video/ilitek-ili9881c.c:137-167 | the callback appends exactly the parse run's lookups, returns its status, and sets each handle the parse reaches, leaving the others as they were |
| Panel.MissingOptionalResources | drivers/video/ilitek-ili9881c.c:142-201 | a description with no regulator and no reset line but with a backlight parses successfully; probe then skips the regulator, issues only the reset sequence and succeeds |
| Panel.Ili9881cPanel.constructor | drivers/video/ilitek-ili9881c.c:221-222 | private and platform data start zeroed: no handle set, 0 lanes, format 0 and no mode flags |
| Timing.GetDisplayTiming | drivers/video/ilitek-ili9881c.c:19-30 | returns 0 and a single fixed mode (min = typ = max): 720x1280, 54 MHz pixel clock, porches 20/20 and 15/10, sync lengths 2 and 2, flags 0 |

## Left out

- Actual DSI transport, GPIO, regulator and delay effects: each is an event in the trace, and its status comes from the environment.
- The `printf` and `dev_err` messages: they have no effect on state or status.
- The driver registration, the compatible-string table and the ops table (lines 204-223): these are device-model plumbing, not behaviour. Only the zeroed allocation of the private and platform data is modelled, by the constructor.
- The `priv` local of enable_backlight and the `plat->device` lookups: they are unused, or stand for the single DSI device the `Host` talks to.
- Panel.OfdataRun: a handle counts as set exactly when its lookup returns 0. The lookup functions themselves are not part of this model.
- Panel.ProbeRun: a reset-line level change is issued even when no reset GPIO was found. The GPIO layer's handling of an invalid descriptor is not part of this model.
- Env: a call made at most once per callback gets one fixed status per kind of call. Only buffer writes are answered per call.
- Timing.GetDisplayTiming: the timing is returned as a value rather than copied through the caller's pointer.
