/**
 * The non-widget logic of menu_gui.py's `CalibrationGUI`: the electrical quantities
 * derived from one set of drive readings, the 250 ms tick that feeds the thermal
 * estimator and the drive's speed, and the row choice and field filling of the
 * CSV import. Widgets, dialogs and file access are not modelled: readings, the clock
 * and the CSV rows arrive as parameters, and the displayed values are returned.
 */
module CalibrationGui {

  import opened Wrappers
  import opened PyInt
  import opened LittleEndian
  import Thermal
  import PowerFlex

  // ---------------------------------------------------------------------------
  // Derived electrical quantities of updateVariables

  /** The drive readings after scaling: volts, amps, rpm and bus volts. */
  datatype Measurements = Measurements(voltage: real, current: real, rpm: real, busVoltage: real)

  /** Raw parameters 4, 3, 15 and 5 of the drive, as read_param returns them. */
  function ScaleReadings(rawVoltage: real, rawCurrent: real, rawRpm: real, rawBusVoltage: real): (m: Measurements)
    ensures m.voltage * 10.0 == rawVoltage && m.current * 100.0 == rawCurrent
    ensures m.rpm == rawRpm && m.busVoltage == rawBusVoltage
  {
    Measurements(rawVoltage / 10.0, rawCurrent / 100.0, rawRpm / 1.0, rawBusVoltage / 1.0)
  }

  /** Input power and losses in kW, torque in Nm, efficiency in percent. */
  datatype Derived = Derived(inputPower: real, outTorque: real, outPower: real,
                             efficiency: real, loss: real, i2r: real)

  const TorqueToPower: real := 9550.0

  /**
   * The chain as the source computes it: input power from the voltage squared, torque
   * from the torque constant, output power from torque and speed, efficiency with a
   * fallback of 0 where the division by input power would raise.
   */
  function Derive(m: Measurements): (d: Derived)
    ensures d.inputPower * 1000.0 == m.voltage * m.voltage
    ensures d.outTorque == Thermal.TorqueConstant * m.current
    ensures d.i2r * 1000.0 == m.current * m.current * Thermal.StatorResistance
    ensures d.loss + d.outPower == d.inputPower
    ensures d.inputPower >= 0.0 && d.i2r >= 0.0
    ensures d.inputPower == 0.0 ==> d.efficiency == 0.0
    ensures d.inputPower != 0.0 ==> d.efficiency * d.inputPower == 100.0 * d.outPower
    ensures d.outPower * TorqueToPower == Thermal.TorqueConstant * m.current * m.rpm
  {
    var inputPower := m.voltage * m.voltage / 1000.0;
    var outTorque := Thermal.TorqueConstant * m.current;
    var outPower := outTorque * m.rpm / TorqueToPower;
    var efficiency := if inputPower == 0.0 then 0.0 else outPower / inputPower * 100.0;
    var loss := inputPower - outPower;
    var i2r := m.current * m.current * Thermal.StatorResistance / 1000.0;
    assert inputPower != 0.0 ==> efficiency * inputPower == 100.0 * outPower by {
      if inputPower != 0.0 {
        assert efficiency * inputPower == (outPower / inputPower) * inputPower * 100.0;
      }
    }
    Derived(inputPower, outTorque, outPower, efficiency, loss, i2r)
  }

  /** What one tick displays. */
  datatype Display = Display(measured: Measurements, derived: Derived, frequency: int,
                             speedLoss: real, timeConstant: real, maxTempRise: real, temperature: real)

  /**
   * The window's state. `calculator` is the estimator shared through the class
   * attribute; `pf` is the drive, absent until one is chosen from a scan.
   */
  class CalibrationGui {
    const calculator: Thermal.TemperatureCalculation
    var pf: PowerFlex.PowerFlex525?
    var totalHeatLoss: real
    var currT: real
    var startTimeUpdate: Option<real>
    var prevTime: real

    /** `__init__` binds its drive to a local only, so the window starts without one. */
    constructor (calculator: Thermal.TemperatureCalculation)
      ensures this.calculator == calculator && pf == null
      ensures totalHeatLoss == 0.0 && currT == 0.0 && startTimeUpdate == None && prevTime == 0.0
    {
      this.calculator := calculator;
      pf := null;
      totalHeatLoss := 0.0;
      currT := 0.0;
      startTimeUpdate := None;
      prevTime := 0.0;
    }

    /**
     * `choose` in the scan dialog: installs a fresh drive object for the selected
     * address and connects it.
     */
    method Choose(ip: string)
      modifies this`pf
      ensures pf != null && fresh(pf)
      ensures pf.ip == ip && pf.drivePath == ip && pf.session == Some(PowerFlex.CipSession(ip))
      ensures pf.speed == 0 && !pf.toggleState
    {
      pf := new PowerFlex.PowerFlex525(ip);
      pf.Connect();
    }

    /**
     * One tick at clock value `now`. Without a drive the first read raises an
     * AttributeError, which the handler swallows, so nothing is shown and nothing
     * changes. With a drive: derive the quantities, pass the slider's speed to the
     * drive, feed the loss (still in kW) and the time since the previous tick to the
     * estimator, and show its state. `firstFailure` says which send, if any, raises
     * when the speed is resent to a started drive.
     */
    method UpdateVariables(now: real, rawVoltage: real, rawCurrent: real, rawRpm: real, rawBusVoltage: real,
                           slider: real, firstFailure: Option<nat>)
      returns (shown: Option<Display>, attempted: seq<seq<byte>>)
      modifies this`totalHeatLoss, this`currT, this`startTimeUpdate, this`prevTime
      modifies calculator`currWattLoss, calculator`timeConstant, calculator`maximumTemp,
               calculator`currDeltaTemp, calculator`currentTemperature
      modifies pf
      ensures pf == old(pf)
      ensures old(pf) == null ==>
                shown == None && attempted == [] && unchanged(this) && unchanged(calculator)
      ensures old(pf) != null ==>
                var d := Derive(ScaleReadings(rawVoltage, rawCurrent, rawRpm, rawBusVoltage));
                shown.Some? &&
                shown.value.measured == ScaleReadings(rawVoltage, rawCurrent, rawRpm, rawBusVoltage) &&
                shown.value.derived == d && totalHeatLoss == d.loss &&
                calculator.currWattLoss == d.loss * Thermal.WattsPerKilowatt &&
                calculator.maximumTemp == Thermal.MaximumTemp(d.loss) &&
                calculator.currDeltaTemp ==
                  Thermal.NextDeltaTemp(d.loss, now - old(prevTime), old(calculator.currDeltaTemp)) &&
                calculator.timeConstant == Thermal.TimeConstant && calculator.Consistent() &&
                startTimeUpdate == Some(if old(startTimeUpdate).Some? then old(startTimeUpdate).value else now) &&
                currT == now - startTimeUpdate.value && prevTime == now
      ensures old(pf) != null ==>
                pf.speed == Trunc(slider) && shown.value.frequency == Trunc(slider) &&
                pf.toggleState == old(pf.toggleState) &&
                pf.ip == old(pf.ip) && pf.drivePath == old(pf.drivePath) && pf.session == old(pf.session) &&
                attempted == (if pf.toggleState then PowerFlex.Attempted(true, Trunc(slider), firstFailure) else [])
      ensures old(pf) != null ==>
                shown.value.speedLoss == calculator.currDeltaTemp &&
                shown.value.timeConstant == calculator.timeConstant &&
                shown.value.maxTempRise == calculator.maximumTemp &&
                shown.value.temperature == calculator.currentTemperature
    {
      if pf == null {
        return None, [];
      }
      var measured := ScaleReadings(rawVoltage, rawCurrent, rawRpm, rawBusVoltage);
      var derived := Derive(measured);
      attempted := pf.SetSpeed(Trunc(slider), firstFailure);
      var frequency := Trunc(slider);
      totalHeatLoss := derived.loss;

      if startTimeUpdate.None? {
        startTimeUpdate := Some(now);
      }
      currT := now - startTimeUpdate.value;
      var diffTime := now - prevTime;
      prevTime := now;

      calculator.UpdateParameters(totalHeatLoss, diffTime);
      shown := Some(Display(measured, derived, frequency, calculator.currDeltaTemp, calculator.timeConstant,
                            calculator.maximumTemp, calculator.currentTemperature));
    }
  }

  /**
   * A fresh window ticks at the clock values `early` before a drive is chosen; every
   * one of those ticks fails, so prevTime is still 0 when the first tick after `Choose`
   * gets through, and that tick hands the estimator the absolute clock value as the
   * elapsed time.
   */
  method FirstTickInterval(early: seq<real>, ip: string, now: real,
                           rawVoltage: real, rawCurrent: real, rawRpm: real, rawBusVoltage: real, slider: real)
    returns (rise: real)
    ensures rise == Thermal.NextDeltaTemp(Derive(ScaleReadings(rawVoltage, rawCurrent, rawRpm, rawBusVoltage)).loss,
                                          now, 0.0)
  {
    var calculator := new Thermal.TemperatureCalculation();
    var gui := new CalibrationGui(calculator);
    for i := 0 to |early|
      invariant gui.pf == null && gui.prevTime == 0.0 && gui.calculator == calculator
      invariant calculator.currDeltaTemp == 0.0
    {
      var shown, attempted := gui.UpdateVariables(early[i], rawVoltage, rawCurrent, rawRpm, rawBusVoltage, slider, None);
    }
    gui.Choose(ip);
    var shown, attempted := gui.UpdateVariables(now, rawVoltage, rawCurrent, rawRpm, rawBusVoltage, slider, None);
    rise := calculator.currDeltaTemp;
  }

  // ---------------------------------------------------------------------------
  // on_import

  /** Column headers that mark the first CSV row as a header row. */
  const ImportHeaders: seq<string> :=
    ["Mode", "Interface", "Profile", "Voltage", "Current", "Duration", "OL Current",
     "Nameplate FLA", "Num Poles", "Nameplate RPM", "Extra A", "Extra B", "Extra C", "Extra D"]

  /** The form fields `on_import` sets, one per column. */
  datatype Field =
    | ModeField | InterfaceField | ProfileField | VoltageField | CurrentField | DurationField
    | OlCurrentField | NameplateFlaField | NumPolesField | NameplateRpmField
    | ExtraAField | ExtraBField | ExtraCField | ExtraDField

  /** The fields in column order. */
  const FormFields: seq<Field> :=
    [ModeField, InterfaceField, ProfileField, VoltageField, CurrentField, DurationField,
     OlCurrentField, NameplateFlaField, NumPolesField, NameplateRpmField,
     ExtraAField, ExtraBField, ExtraCField, ExtraDField]

  /** The fields the window's constructor creates: every one except the duration field. */
  const CreatedFields: set<Field> :=
    {ModeField, InterfaceField, ProfileField, VoltageField, CurrentField,
     OlCurrentField, NameplateFlaField, NumPolesField, NameplateRpmField,
     ExtraAField, ExtraBField, ExtraCField, ExtraDField}

  /** `any(h in first for h in headers)` */
  function AnyHeader(first: seq<string>, headers: seq<string>): bool
  {
    if headers == [] then false else headers[0] in first || AnyHeader(first, headers[1..])
  }

  lemma {:induction false} AnyHeaderExists(first: seq<string>, headers: seq<string>)
    ensures AnyHeader(first, headers) <==> exists i :: 0 <= i < |headers| && headers[i] in first
  {
    if headers != [] {
      AnyHeaderExists(first, headers[1..]);
      if headers[0] !in first && AnyHeader(first, headers[1..]) {
        var i :| 0 <= i < |headers[1..]| && headers[1..][i] in first;
        assert headers[i + 1] in first;
      }
      if exists i :: 0 <= i < |headers| && headers[i] in first {
        var i :| 0 <= i < |headers| && headers[i] in first;
        if i > 0 {
          assert headers[1..][i - 1] in first;
        }
      }
    }
  }

  datatype ImportError = FileEmpty

  /**
   * The index of the row holding the values: the second row exactly when the first
   * contains a header name and a second row exists, otherwise the first. An empty
   * file is refused.
   */
  function ValueRow(rows: seq<seq<string>>): (r: Result<nat, ImportError>)
    ensures r.Failure? <==> rows == []
    ensures r.Success? ==> r.value < |rows| && r.value <= 1
    ensures r.Success? ==>
              (r.value == 1 <==> |rows| > 1 && exists i :: 0 <= i < |ImportHeaders| && ImportHeaders[i] in rows[0])
  {
    if rows == [] then
      Failure(FileEmpty)
    else
      AnyHeaderExists(rows[0], ImportHeaders);
      if AnyHeader(rows[0], ImportHeaders) && |rows| > 1 then Success(1) else Success(0)
  }

  /** `gv(i)`: the value in column i, or "" past the end of the row. */
  function Gv(values: seq<string>, i: nat): string
  {
    if i < |values| then values[i] else ""
  }

  datatype FillOutcome = Complete(filled: seq<string>) | MissingField(field: Field, filled: seq<string>)

  /**
   * Assigns `gv(offset + i)` to field i in order; the first field that was never
   * created raises, leaving the fields before it assigned.
   */
  function Fill(values: seq<string>, fields: seq<Field>, created: set<Field>, offset: nat): (o: FillOutcome)
    ensures o.Complete? <==> forall i | 0 <= i < |fields| :: fields[i] in created
    ensures o.Complete? ==> |o.filled| == |fields|
    ensures o.MissingField? ==>
              |o.filled| < |fields| && fields[|o.filled|] == o.field && o.field !in created &&
              forall i | 0 <= i < |o.filled| :: fields[i] in created
    ensures forall i | 0 <= i < |o.filled| :: o.filled[i] == Gv(values, offset + i)
    decreases |fields|
  {
    if fields == [] then
      Complete([])
    else if fields[0] !in created then
      MissingField(fields[0], [])
    else
      match Fill(values, fields[1..], created, offset + 1)
      case Complete(rest) => Complete([Gv(values, offset)] + rest)
      case MissingField(f, rest) => MissingField(f, [Gv(values, offset)] + rest)
  }

  datatype ImportOutcome =
    | ImportRefused(error: ImportError)
    | ImportFailed(missing: Field, filled: seq<string>)
    | Imported(filled: seq<string>)

  /** The import for a given set of created fields. */
  function Import(rows: seq<seq<string>>, created: set<Field>): ImportOutcome
  {
    match ValueRow(rows)
    case Failure(e) => ImportRefused(e)
    case Success(k) =>
      match Fill(rows[k], FormFields, created, 0)
      case Complete(a) => Imported(a)
      case MissingField(f, a) => ImportFailed(f, a)
  }

  /** `on_import` as written, with the fields the constructor actually creates. */
  function OnImport(rows: seq<seq<string>>): ImportOutcome
  {
    Import(rows, CreatedFields)
  }

  /** `on_import` as evidently intended, with the duration field created. */
  function OnImportCorrected(rows: seq<seq<string>>): ImportOutcome
  {
    Import(rows, CreatedFields + {DurationField})
  }

  /** An empty file is refused. */
  lemma ImportRefusesEmptyFile()
    ensures OnImport([]) == ImportRefused(FileEmpty)
  {
  }

  /**
   * As written, every non-empty import fails at the duration field, after assigning
   * exactly the first five columns of the chosen row.
   */
  lemma ImportStopsAtDuration(rows: seq<seq<string>>)
    requires rows != []
    ensures var values := rows[ValueRow(rows).value];
      var o := OnImport(rows);
      o.ImportFailed? && o.missing == DurationField && |o.filled| == 5 &&
      forall i | 0 <= i < 5 :: o.filled[i] == Gv(values, i)
  {
    var values := rows[ValueRow(rows).value];
    var fields, created := FormFields, CreatedFields;
    assert fields[5] == DurationField && DurationField !in created;
    assert forall i | 0 <= i < 5 :: fields[i] in created;
    FillStopsAtFirstMissing(values, fields, created, 0, 5);
  }

  /** Fill stops at the first field that was not created, with the columns before it assigned. */
  lemma {:induction false} FillStopsAtFirstMissing(values: seq<string>, fields: seq<Field>, created: set<Field>,
                                                   offset: nat, n: nat)
    requires n < |fields| && fields[n] !in created
    requires forall i | 0 <= i < n :: fields[i] in created
    ensures Fill(values, fields, created, offset) == MissingField(fields[n], seq(n, i requires 0 <= i => Gv(values, offset + i)))
    decreases n
  {
    if n > 0 {
      FillStopsAtFirstMissing(values, fields[1..], created, offset + 1, n - 1);
      assert [Gv(values, offset)] + seq(n - 1, i requires 0 <= i => Gv(values, offset + 1 + i)) == seq(n, i requires 0 <= i => Gv(values, offset + i));
    }
  }

  /** With the duration field created, every column of the chosen row is filled. */
  lemma CorrectedImportFillsAllFields(rows: seq<seq<string>>)
    requires rows != []
    ensures var values := rows[ValueRow(rows).value];
      var o := OnImportCorrected(rows);
      o.Imported? && |o.filled| == |ImportHeaders| &&
      forall i | 0 <= i < |ImportHeaders| :: o.filled[i] == Gv(values, i)
  {
    var values := rows[ValueRow(rows).value];
    assert forall i | 0 <= i < |FormFields| :: FormFields[i] in CreatedFields + {DurationField};
    var o := Fill(values, FormFields, CreatedFields + {DurationField}, 0);
    assert o.Complete?;
  }
}
