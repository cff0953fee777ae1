/**
 * temperatureCalculation.py: a lumped thermal model of one motor. Each call of
 * `UpdateParameters(loss, deltaTime)` takes one forward-Euler step of
 *   m * c * dT/dt = P - A * h * T
 * for the rise T above ambient, with P = loss * 1000 W and the time step
 * deltaTime / 30, then applies a deadband that zeroes the accumulated rise
 * whenever the step is below 1e-6.
 *
 * The arithmetic is over `real`: binary floating point and its rounding are not modelled.
 */
module Thermal {

  // Constants of the 10340 motor.
  const SurfaceArea: real := 0.104758          // m^2, cooling surface A
  const StatorResistance: real := 9.4585       // ohm
  const WeightActiveParts: real := 6.0         // kg, m
  const SpecificHeat: real := 750.0            // J/(kg K), c
  const SpecificHeatDisipation: real := 540.0  // W/(m^2 K), h
  const TorqueConstant: real := 1.867          // Nm/A

  const InitialAmbientTemperature: real := 27.0
  /** The elapsed time is divided by this before the step. */
  const TimeDivisor: real := 30.0
  /** The loss arrives in kW and is used in W. */
  const WattsPerKilowatt: real := 1000.0
  const SecondsPerHour: real := 3600.0
  /** Steps with magnitude below this are treated as zero, and reset the rise. */
  const Deadband: real := 0.000001

  /** `timeConstant` exactly as grouped in the source: ((m * c) / A) * h / 3600. */
  const TimeConstant: real := WeightActiveParts * SpecificHeat / SurfaceArea * SpecificHeatDisipation / SecondsPerHour

  function Abs(x: real): real
  {
    if x < 0.0 then -x else x
  }

  /** The steady-state rise for a loss in kW: P / A / h. */
  function MaximumTemp(lossKw: real): real
  {
    lossKw * WattsPerKilowatt / SurfaceArea / SpecificHeatDisipation
  }

  /** The uncorrected forward-Euler step `deltaTempRise` for the current rise `deltaTemp`. */
  function Increment(lossKw: real, deltaTime: real, deltaTemp: real): real
  {
    ((lossKw * WattsPerKilowatt - SurfaceArea * SpecificHeatDisipation * deltaTemp) * (deltaTime / TimeDivisor))
      / (WeightActiveParts * SpecificHeat)
  }

  /** The rise after one update: old rise plus the step, or 0 when the step falls in the deadband. */
  function NextDeltaTemp(lossKw: real, deltaTime: real, deltaTemp: real): real
  {
    var rise := Increment(lossKw, deltaTime, deltaTemp);
    if Abs(rise) < Deadband then 0.0 else deltaTemp + rise
  }

  /** The fraction of the remaining distance to the steady state that one step covers. */
  function Gain(deltaTime: real): real
  {
    SurfaceArea * SpecificHeatDisipation * (deltaTime / TimeDivisor) / (WeightActiveParts * SpecificHeat)
  }

  /** The step moves the rise toward MaximumTemp: it is Gain * (MaximumTemp - rise). */
  lemma IncrementIsRelaxation(lossKw: real, deltaTime: real, deltaTemp: real)
    ensures Increment(lossKw, deltaTime, deltaTemp) == Gain(deltaTime) * (MaximumTemp(lossKw) - deltaTemp)
  {
    var ah := SurfaceArea * SpecificHeatDisipation;
    var mc := WeightActiveParts * SpecificHeat;
    var s := deltaTime / TimeDivisor;
    var p := lossKw * WattsPerKilowatt;
    assert MaximumTemp(lossKw) == p / ah;
    assert ah * (p / ah) == p;
    calc {
      Gain(deltaTime) * (MaximumTemp(lossKw) - deltaTemp);
      (ah * s / mc) * (p / ah - deltaTemp);
      (s / mc) * (ah * (p / ah) - ah * deltaTemp);
      (s / mc) * (p - ah * deltaTemp);
      ((p - ah * deltaTemp) * s) / mc;
    }
  }

  /** Outside the deadband the step is added to the accumulated rise. */
  lemma NoDeadbandAccumulates(lossKw: real, deltaTime: real, deltaTemp: real)
    requires Abs(Increment(lossKw, deltaTime, deltaTemp)) >= Deadband
    ensures NextDeltaTemp(lossKw, deltaTime, deltaTemp) == deltaTemp + Increment(lossKw, deltaTime, deltaTemp)
  {
  }

  /** Inside the deadband the whole accumulated rise is discarded, whatever it was. */
  lemma DeadbandDiscardsRise(lossKw: real, deltaTime: real, deltaTemp: real)
    requires Abs(Increment(lossKw, deltaTime, deltaTemp)) < Deadband
    ensures NextDeltaTemp(lossKw, deltaTime, deltaTemp) == 0.0
  {
  }

  /** A zero time step lands in the deadband, so it resets the rise. */
  lemma ZeroStepResets(lossKw: real, deltaTemp: real)
    ensures Increment(lossKw, 0.0, deltaTemp) == 0.0
    ensures NextDeltaTemp(lossKw, 0.0, deltaTemp) == 0.0
  {
  }

  /** At the steady state P = A * h * T the step is zero, so the rise is reset to 0 there too. */
  lemma EquilibriumResets(lossKw: real, deltaTime: real)
    ensures Increment(lossKw, deltaTime, MaximumTemp(lossKw)) == 0.0
    ensures NextDeltaTemp(lossKw, deltaTime, MaximumTemp(lossKw)) == 0.0
  {
    IncrementIsRelaxation(lossKw, deltaTime, MaximumTemp(lossKw));
  }

  /**
   * While a step covers at most the whole distance (Gain <= 1), an update never
   * overshoots: the new rise lies between the old rise and MaximumTemp, unless the
   * deadband reset it to 0.
   */
  lemma StepDoesNotOvershoot(lossKw: real, deltaTime: real, deltaTemp: real)
    requires 0.0 <= Gain(deltaTime) <= 1.0
    ensures var next := NextDeltaTemp(lossKw, deltaTime, deltaTemp);
      var target := MaximumTemp(lossKw);
      next == 0.0 ||
      ((deltaTemp <= target ==> deltaTemp <= next <= target) &&
       (target <= deltaTemp ==> target <= next <= deltaTemp))
  {
    IncrementIsRelaxation(lossKw, deltaTime, deltaTemp);
    RelaxationStep(deltaTemp, MaximumTemp(lossKw), Gain(deltaTime), Increment(lossKw, deltaTime, deltaTemp),
                   NextDeltaTemp(lossKw, deltaTime, deltaTemp));
  }

  /**
   * A step of `rise`, a fraction g in [0, 1] of the way from d to t, ends between d
   * and t, unless the result was reset to 0.
   */
  lemma RelaxationStep(d: real, t: real, g: real, rise: real, next: real)
    requires 0.0 <= g <= 1.0 && rise == g * (t - d)
    requires next == 0.0 || next == d + rise
    ensures next == 0.0 || ((d <= t ==> d <= next <= t) && (t <= d ==> t <= next <= d))
  {
    var x := t - d;
    StepBounds(g, x);
    assert 0.0 <= x ==> 0.0 <= g * x <= x;
    assert rise == g * x;
    assert d <= t ==> 0.0 <= rise <= t - d;
    assert t <= d ==> t - d <= rise <= 0.0;
  }

  /** A fraction g in [0, 1] of a distance x has the sign of x and is at most as large. */
  lemma StepBounds(g: real, x: real)
    requires 0.0 <= g <= 1.0
    ensures 0.0 <= x ==> 0.0 <= g * x <= x
    ensures x <= 0.0 ==> x <= g * x <= 0.0
  {
    if 0.0 <= x {
      ScaleWithin(g, x);
    } else {
      ScaleWithin(g, -x);
      assert g * x == -(g * -x);
    }
  }

  /** Scaling a non-negative x by g in [0, 1] gives a value between 0 and x. */
  lemma ScaleWithin(g: real, x: real)
    requires 0.0 <= g <= 1.0 && 0.0 <= x
    ensures 0.0 <= g * x <= x
  {
    assert x - g * x == (1.0 - g) * x;
  }

  /** With no loss the rise cools toward ambient without going below it. */
  lemma CoolingIsMonotone(deltaTime: real, deltaTemp: real)
    requires 0.0 <= Gain(deltaTime) <= 1.0 && deltaTemp >= 0.0
    ensures 0.0 <= NextDeltaTemp(0.0, deltaTime, deltaTemp) <= deltaTemp
  {
    StepDoesNotOvershoot(0.0, deltaTime, deltaTemp);
  }

  /** From rest, 0.5 kW for 30 s raises the motor by 500 / 4500 = 1/9 degree. */
  lemma WorkedExample()
    ensures Increment(0.5, 30.0, 0.0) == 1.0 / 9.0
    ensures NextDeltaTemp(0.5, 30.0, 0.0) == 1.0 / 9.0
  {
  }

  /**
   * The source's grouping multiplies by h where the lumped time constant
   * m * c / (A * h) divides by it; both readings of the formula differ.
   */
  lemma TimeConstantGrouping()
    ensures TimeConstant == WeightActiveParts * SpecificHeat * SpecificHeatDisipation / (SurfaceArea * SecondsPerHour)
    ensures TimeConstant != WeightActiveParts * SpecificHeat / (SurfaceArea * SpecificHeatDisipation) / SecondsPerHour
  {
  }

  class TemperatureCalculation {
    var currRise: real
    var ambientTemperature: real
    var currentTemperature: real
    var currDeltaTemp: real
    var prevWattLoss: real
    var currWattLoss: real
    var isMotorOn: bool
    var isStillChanging: bool
    var timeConstant: real
    var maximumTemp: real

    /** The temperature shown is ambient plus the accumulated rise. */
    ghost predicate Consistent()
      reads this
    {
      currentTemperature == ambientTemperature + currDeltaTemp
    }

    constructor ()
      ensures Consistent()
      ensures ambientTemperature == InitialAmbientTemperature && currentTemperature == InitialAmbientTemperature
      ensures currDeltaTemp == 0.0 && currRise == 0.0 && prevWattLoss == 0.0 && currWattLoss == 0.0
      ensures !isMotorOn && !isStillChanging && timeConstant == 0.0 && maximumTemp == 0.0
    {
      currRise := 0.0;
      ambientTemperature := InitialAmbientTemperature;
      currentTemperature := ambientTemperature;
      currDeltaTemp := 0.0;
      prevWattLoss := 0.0;
      currWattLoss := 0.0;
      isMotorOn := false;
      isStillChanging := false;
      timeConstant := 0.0;
      maximumTemp := 0.0;
    }

    /**
     * One estimator tick for a loss in kW over `deltaTime` seconds. Only the five
     * fields named in the frame change; currWattLoss, timeConstant and maximumTemp
     * depend on the argument alone.
     */
    method UpdateParameters(lossKw: real, deltaTime: real)
      modifies this`currWattLoss, this`timeConstant, this`maximumTemp, this`currDeltaTemp, this`currentTemperature
      ensures currWattLoss == lossKw * WattsPerKilowatt
      ensures timeConstant == TimeConstant
      ensures maximumTemp == MaximumTemp(lossKw)
      ensures currDeltaTemp == NextDeltaTemp(lossKw, deltaTime, old(currDeltaTemp))
      ensures Consistent()
    {
      var dt := deltaTime / TimeDivisor;
      currWattLoss := lossKw * WattsPerKilowatt;
      timeConstant := WeightActiveParts * SpecificHeat / SurfaceArea * SpecificHeatDisipation / SecondsPerHour;
      maximumTemp := lossKw * WattsPerKilowatt / SurfaceArea / SpecificHeatDisipation;
      var deltaTempRise :=
        ((currWattLoss - (SurfaceArea * SpecificHeatDisipation * currDeltaTemp)) * dt) / (WeightActiveParts * SpecificHeat);
      if Abs(deltaTempRise) < Deadband {
        deltaTempRise := 0.0;
        currDeltaTemp := 0.0;
      }
      currDeltaTemp := currDeltaTemp + deltaTempRise;
      currentTemperature := ambientTemperature + currDeltaTemp;
    }
  }

  /** A fresh estimator given 0.5 kW for 30 s reads 27 + 1/9 degrees. */
  method WorkedExampleRun() returns (temperature: real)
    ensures temperature == 27.0 + 1.0 / 9.0
  {
    var estimator := new TemperatureCalculation();
    estimator.UpdateParameters(0.5, 30.0);
    WorkedExample();
    temperature := estimator.currentTemperature;
  }
}
