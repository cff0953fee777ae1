# CortexMain motor calibration bench: a verified Dafny model

CortexMain is a Tk calibration bench for an Allen-Bradley PowerFlex 525 drive. It
drives a motor over EtherNet/IP and estimates the motor's temperature from the
electrical losses. This project models the parts of it that hold logic:

- **Thermal estimator** (`thermal.dfy`, temperatureCalculation.py). A lumped
  forward-Euler model of the temperature rise above ambient, with a 1e-6 deadband.
  It is a class with the source's fields and one update method.
- **Speed bytes and drive requests** (`byte_change.dfy`, `power_flex.dfy`,
  `little_endian.dfy`). These cover:
  - the low/high byte split, with and without the ×100 scaling to 0.01 Hz units;
  - the 34-byte PCCC start/stop requests and their 20-round send loop;
  - the `speed`/`toggleState` state of the `PowerFlex525` object;
  - the choice of write formats in `write_param_diagnostic`.
- **Bit toggle script** (`bit_toggle.dfy`, test.py). It sets or clears bit 1 of a
  16-bit signed little-endian parameter and writes it back.
- **GUI logic without widgets** (`calibration_gui.dfy`, `graph_window.dfy`,
  menu_gui.py). This covers:
  - the derived power, efficiency and loss chain;
  - the 250 ms tick that feeds the estimator and the drive;
  - the CSV import's choice of row and filling of fields;
  - the graph window's seven-series sample buffer and its padded export.

Python's `int(x)` on a float is modelled as truncation (`pyint.dfy`). Python's
`>>` and `& 0xFF` are floor division and the non-negative residue, and Dafny's
`/` and `%` by a positive constant behave the same way.

Arithmetic is over `real`; binary floating point is not modelled. The values the
program gets from outside are parameters of the model:
- drive readings;
- the clock value;
- slider positions;
- CSV rows;
- which network send raises.

The values it would send or display are results.

## Model

| member | source | states |
|---|---|---|
| PyInt.TruncTowardZero | menu_gui.py:523 | `int()` of a float keeps its sign and lies within 1 of it, toward zero |
| PyInt.TruncOfInteger | menu_gui.py:528 | `int()` of a whole float is that integer |
| LittleEndian.TwoByteValues | test.py:25 | two bytes decode, unsigned, to lo + 256·hi, and signed, to that minus 65536 when the high byte is ≥ 128 |
| LittleEndian.Uint16RoundTrip | AB525.py:131 | the unsigned 16-bit little-endian encoding decodes back to its value |
| LittleEndian.Int16RoundTrip | test.py:44 | the signed 16-bit little-endian encoding decodes back to its value |
| LittleEndian.TwoByteDecodeRoundTrip | test.py:25-44 | any 2 bytes decode to a value in −32768..32767 whose 2-byte signed encoding is the same 2 bytes |
| ByteChange.GetHighByte | byteChange.py:1-6 | the high-byte helper returns exactly one byte |
| ByteChange.GetLowByte | byteChange.py:8-13 | the low-byte helper returns exactly one byte |
| ByteChange.SplitJoin | byteChange.py:4-11 | for 0 ≤ v < 65536, low + 256·high == v |
| ByteChange.SplitIsUint16LE | byteChange.py:4-11 | for a 16-bit v, low then high is its unsigned little-endian encoding |
| ByteChange.JoinSplit | byteChange.py:4-11 | splitting lo + 256·hi returns lo and hi |
| ByteChange.SplitCongruent | byteChange.py:4-11 | for every integer, negatives included, low + 256·high ≡ v mod 65536 |
| ByteChange.SplitPeriodic | byteChange.py:4-11 | values differing by a multiple of 65536 give the same low and high bytes |
| ByteChange.NegativeOneSplit | byteChange.py:4-11 | −1 splits as 0xFF, 0xFF (two's complement, floor shift) |
| ByteChange.PrepControls2 | byteChange.py:19-23 | the request is 34 bytes: the 32-byte literal prefix, then low, then high; its last two bytes decode to the speed mod 65536 |
| ByteChange.PrepControls2Example | byteChange.py:17-22 | for speed 6000 the bytes are 0x70 then 0x17 |
| PowerFlex.GetHighByte | AB525.py:66-74 | the drive's high byte is the plain high byte of value·100 |
| PowerFlex.GetLowByte | AB525.py:76-83 | the drive's low byte is the plain low byte of value·100 |
| PowerFlex.SpeedBytesLossless | AB525.py:74-83 | for 0 ≤ v ≤ 655, low + 256·high == v·100, and the pair is the unsigned 16-bit encoding of v·100 |
| PowerFlex.PcccRequests | AB525.py:323-331 | three 34-byte requests. Byte 28 is 0x02 (start) or 0x09 (stop) in requests 1 and 2 and 0x00 in request 3. Every other prefix byte is shared. The last two bytes are the low then high speed bytes |
| PowerFlex.RequestSpeedDecodes | AB525.py:325-331 | for 0 ≤ speed ≤ 655, the trailing bytes of each request decode to speed·100 |
| PowerFlex.Schedule | AB525.py:315-353 | an uninterrupted call sends 20 × 3 = 60 messages |
| PowerFlex.AttemptedShape | AB525.py:315-366 | a call sends up to and including the first raising send (60 when none raises), and send k is request k mod 3 |
| PowerFlex.PowerFlex525.constructor | AB525.py:52-57 | ip and drive path are the argument; no session; speed 0; toggleState false |
| PowerFlex.PowerFlex525.SetSpeed | AB525.py:59-64 | speed is always stored; the start requests are resent exactly when toggleState is true, and toggleState is unchanged |
| PowerFlex.PowerFlex525.WritePcccParam | AB525.py:313-366 | toggleState is stored before the first send; the sends are the schedule cut at the first raising send |
| PowerFlex.PackedIntegersDecode | AB525.py:130-131 | the INT16 payload decodes signed to int(value); the UINT16 payload decodes to int(value) & 0xFFFF |
| PowerFlex.Candidates | AB525.py:121-137 | the formats follow the table by read-back kind and length, with their payloads. Building fails iff INT16 is among them and int(value) is outside −32768..32767 |
| PowerFlex.WriteParamDiagnostic | AB525.py:98-159 | every candidate is written in order, since a write that raises is swallowed; when INT16 packing raises, the failure carries int(value) |
| BitToggle.MaskOfBitNum | test.py:6-29 | the mask `1 << BIT_NUM` is 2 |
| BitToggle.SetBitBits | test.py:31-32 | setting makes bit k 1 and leaves every other bit unchanged |
| BitToggle.ClearBitBits | test.py:33-34 | clearing makes bit k 0 and leaves every other bit unchanged |
| BitToggle.BitsDetermineValue | test.py:29-34 | two integers with the same two's-complement bits are equal |
| BitToggle.SetBitIsOr | test.py:32 | the set value is the unique integer with bit k 1 and the other bits of x, which is x bitwise-or the mask |
| BitToggle.ClearBitIsAndNot | test.py:34 | the cleared value is the unique integer with bit k 0 and the other bits of x, which is `x & ~mask` |
| BitToggle.SetIdempotent | test.py:32 | setting twice is setting once |
| BitToggle.ClearIdempotent | test.py:34 | clearing twice is clearing once |
| BitToggle.ClearAfterSet | test.py:32-34 | clear(set(x)) == clear(x) |
| BitToggle.Bit1StaysInInt16 | test.py:32-44 | setting or clearing bit 1 keeps a 16-bit value in range |
| BitToggle.WriteBackRequest | test.py:21-44 | a read error stops the script with that error. Without one, the write happens iff the new value fits in −32768..32767, and otherwise `to_bytes` overflows with that value. Any written value is 2 bytes decoding to the new value. A 2-byte read always reaches the write |
| BitToggle.WriteBackChangesOnlyBit1 | test.py:25-44 | after a 2-byte read, the written value differs from the read one only in bit 1, which is as requested |
| Thermal.IncrementIsRelaxation | temperatureCalculation.py:54-59 | the Euler step is Gain·(maximumTemp − rise): it moves the rise toward the steady state P/(A·h) |
| Thermal.NoDeadbandAccumulates | temperatureCalculation.py:59-65 | a step of magnitude ≥ 1e-6 is added to the old rise |
| Thermal.DeadbandDiscardsRise | temperatureCalculation.py:61-65 | a step below 1e-6 sets the rise to exactly 0, whatever it was |
| Thermal.ZeroStepResets | temperatureCalculation.py:54-63 | deltaTime = 0 yields a zero step and a reset rise |
| Thermal.EquilibriumResets | temperatureCalculation.py:57-63 | at rise == P/(A·h) the step is 0 and the rise is reset to 0 |
| Thermal.StepDoesNotOvershoot | temperatureCalculation.py:59-65 | with Gain ≤ 1 the new rise lies between the old rise and the steady state, unless reset to 0 |
| Thermal.RelaxationStep | temperatureCalculation.py:59-65 | a step that is a fraction g ∈ [0,1] of the way from the old rise toward the target ends between them, unless reset to 0 |
| Thermal.StepBounds | temperatureCalculation.py:59-65 | a fraction g ∈ [0,1] of a distance has the distance's sign and is no larger in magnitude |
| Thermal.ScaleWithin | temperatureCalculation.py:59-65 | g·x lies between 0 and x for g ∈ [0,1] and x ≥ 0 |
| Thermal.CoolingIsMonotone | temperatureCalculation.py:59-65 | with zero loss and Gain ≤ 1 a non-negative rise does not grow and stays ≥ 0 |
| Thermal.WorkedExample | temperatureCalculation.py:7-12 | from rest, loss 0.5 kW for 30 s gives a step of 500/4500 = 1/9 |
| Thermal.TimeConstantGrouping | temperatureCalculation.py:56 | the source's timeConstant is m·c·h/(A·3600), not m·c/(A·h)/3600 |
| Thermal.TemperatureCalculation.constructor | temperatureCalculation.py:24-45 | rise 0, ambient and current temperature 27, every other field 0 or false |
| Thermal.TemperatureCalculation.UpdateParameters | temperatureCalculation.py:49-67 | currWattLoss, timeConstant and maximumTemp depend on the argument alone. The rise is the deadbanded Euler step from the old rise. currentTemperature == ambient + rise. Nothing else changes |
| Thermal.WorkedExampleRun | temperatureCalculation.py:49-67 | a fresh estimator updated with (0.5, 30) reads 27 + 1/9 |
| CalibrationGui.ScaleReadings | menu_gui.py:515-519 | voltage is raw/10, current raw/100, rpm and bus voltage as read |
| CalibrationGui.Derive | menu_gui.py:518-538 | inputPower·1000 == V·V, outTorque == TorqueConstant·I, i2r·1000 == I²·StatorResistance. loss + outPower == inputPower. inputPower and i2r are ≥ 0. Efficiency is 0 when inputPower is 0, and otherwise efficiency·inputPower == 100·outPower. outPower·9550 == TorqueConstant·I·rpm |
| CalibrationGui.CalibrationGui.constructor | menu_gui.py:52-63 | no drive stored on the window (the one built in `__init__` is a local); totalHeatLoss 0, curr_t 0, no start time, prevTime 0 |
| CalibrationGui.CalibrationGui.Choose | menu_gui.py:348-358 | the selected address gets a fresh drive object installed on the window, with speed 0, not started, and its session created by `connect` |
| PowerFlex.PowerFlex525.Connect | AB525.py:86-90 | the session becomes the driver for the drive path |
| CalibrationGui.CalibrationGui.UpdateVariables | menu_gui.py:509-600 | one tick. Without a drive, the AttributeError of the first read is swallowed and nothing is shown or changed. With a drive, it covers the following. The derived values are shown. The drive gets int(slider) and resends it only while started. The estimator gets the loss in kW and now − previous prevTime. The start time is set once, curr_t is measured from it, and prevTime := now. The estimator's state is shown |
| CalibrationGui.FirstTickInterval | menu_gui.py:54-561 | after any number of failing ticks before a drive is chosen, the first tick that gets through hands the estimator the absolute clock value as elapsed time |
| CalibrationGui.AnyHeaderExists | menu_gui.py:476 | the header test holds iff some header name occurs in the first row |
| CalibrationGui.ValueRow | menu_gui.py:453-479 | an empty file is refused. Otherwise row 2 is taken iff row 1 contains a header name and a second row exists, else row 1 |
| CalibrationGui.Fill | menu_gui.py:482-502 | fields are assigned gv(i) in column order; gv is "" past the end of the row; the first missing field stops the fill with the earlier fields assigned |
| CalibrationGui.ImportRefusesEmptyFile | menu_gui.py:453-455 | an empty file gives the "File is empty" refusal |
| CalibrationGui.ImportStopsAtDuration | menu_gui.py:489-506 | as written, every non-empty import fails at the duration field after assigning exactly the first five columns |
| CalibrationGui.FillStopsAtFirstMissing | menu_gui.py:489-502 | the fill stops at the first field that does not exist, having assigned the n columns before it |
| CalibrationGui.CorrectedImportFillsAllFields | menu_gui.py:489-502 | with the duration field present, all 14 fields receive gv(0)..gv(13) of the chosen row |
| GraphWindow.GraphWindow.constructor | menu_gui.py:724-738 | all seven series empty, no start time, not running, no pending call |
| GraphWindow.GraphWindow.Sample | menu_gui.py:764-835 | a no-op unless running. Otherwise one entry is appended to each of the seven series (time measured from the first sample) and the next call is scheduled. Equal series lengths are preserved |
| GraphWindow.GraphWindow.Start | menu_gui.py:837-857 | a no-op while running. Otherwise running is set, the series are emptied, start_time is reset and one sample at time 0 is taken, so all seven series have length 1 |
| GraphWindow.GraphWindow.Stop | menu_gui.py:859-870 | a no-op when not running; otherwise running is cleared and after_id becomes None |
| GraphWindow.GraphWindow.ExportSamples | menu_gui.py:872-892 | refuses iff there are no samples. Otherwise a header of 'time_s', the three chosen labels and the three fixed names, then one row per time: the time, then each series' entry or '' past its end |
| GraphWindow.ValidExportHasNoBlanks | menu_gui.py:884-892 | while the series are equal in length no exported cell is padded |

## Left out

- Tk widgets, StringVars as UI objects, message boxes, file dialogs and matplotlib plotting are not modelled. `updateVariables` reads and writes StringVars; the model passes the values directly, without their string round trip.
- Drive networking is not modelled: opening the session in `connect` (only the session object it stores is modelled), `disconnect`, `read_param`, `read_PCCC_param`, `prepControls`, `printResponse`, the CIP driver and device discovery. A send is represented by the payload it is handed. Whether a send raises is a parameter; this also covers sending on a session that was never opened, which raises in the source and is caught by the same handler.
- The in-loop `printResponse` calls of `write_PCCC_param` and the read before the write in `write_param_diagnostic` are not modelled: the value read back is a parameter.
- IEEE-754 REAL32 packing through `struct.pack('<f', …)` is not computed, and its OverflowError for huge values is not modelled. A float payload is represented by the value it packs.
- PowerFlex.WriteParamDiagnostic: the responses to the writes are not modelled. Which writes raise does not matter, because the source swallows each write's exception and goes on.
- testBench.py is not part of this model: it is a serial Modbus read with no logic.
- Wall-clock scheduling is not modelled: `time.time()`, the 250 ms and 500 ms `after` loops, and cancelling an `after` call. One tick or sample is a method taking `now` and the new timer id as parameters.
- Concurrent tick chains are not modelled. `updateVariables` reschedules itself on every call (menu_gui.py:514), so every direct call starts another independent 250 ms chain feeding the same estimator: at construction (menu_gui.py:194), in `on_start` (menu_gui.py:629) and in the graph window's `start` (menu_gui.py:854). After k such presses up to k+1 chains run. The interval handed to the estimator is then the time since the last tick of any chain. Shorter intervals make the deadband reset of the rise more likely. The model takes the ticks one at a time, in whatever order they arrive, and does not track how many chains exist. The 500 ms graph sampler interleaves with them in the same way.
- GraphWindow.GraphWindow.Start: its best-effort call to the parent's `updateVariables` is not modelled; the sampled values are parameters.
- `get_value_by_name` (reading a displayed value back into a float, or NaN when that raises) is not modelled. The sampled values arrive as `Reading`s, where NaN stands for a failed read.
- Binary float rounding is not modelled, neither near the 1e-6 deadband nor in the ×10/×100 nameplate rescaling of `readInitalParams` and `on_start`.
- `on_start`, `on_stop`, `on_scan`, `readInitalParams` and `on_export` are not modelled: they are drive I/O and file I/O. `on_export` also reads the missing duration field (menu_gui.py:425), so it fails with the same error as the import in the finding below.
- Reading and writing the CSV files is not modelled: rows are sequences of strings and exported rows are sequences of cells.
- `calibrate()` calls a write method that does not exist. It is dead code and is not modelled, nor are the `__main__` blocks, commented-out code and debug prints.
- CalibrationGui.CalibrationGui.UpdateVariables: only the AttributeError of a tick without a drive is modelled. A failed `read_param` returns 0 (AB525.py:204), which the readings, being parameters, cover. Opening the connection and `readInitalParams` in `choose` are drive I/O and are not modelled.
- The `get_low_byte`/`get_high_byte` docstrings in AB525.py (lines 67-79) describe the bytes of the value itself. The code scales by 100 first, and the model follows the code.
- The deadband zeroes the accumulated rise rather than only the step. `timeConstant` is grouped as ((m·c)/A)·h/3600. Input power is V·V/1000. All three are kept as written (see Thermal.DeadbandDiscardsRise and Thermal.TimeConstantGrouping).
- `SET_BIT` in test.py is a constant in the source. It is a parameter of BitToggle.WriteBackRequest so that both branches are covered.

## Findings

| source | as written | input that shows it | evidently intended | confidence | as-written member | corrected member |
|---|---|---|---|---|---|---|
| menu_gui.py:494 | `on_import` sets `self.duration_var`, which the window never creates; the AttributeError is caught at line 505 and reported as an import failure after five fields | any non-empty CSV file | all fourteen fields are filled from the chosen row | high, not executed | CalibrationGui.ImportStopsAtDuration | CalibrationGui.CorrectedImportFillsAllFields |
