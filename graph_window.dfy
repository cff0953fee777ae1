/**
 * The sample buffer of menu_gui.py's `GraphWindow`: seven parallel series (time,
 * three user-chosen quantities, I2R loss, speed loss and temperature) filled by the
 * 500 ms sampler while running, reset by `start`, frozen by `stop`, and written out
 * row by row by `export_samples`. Plotting, buttons and scheduling are not
 * modelled; the clock, the sampled values and the timer id arrive as parameters.
 */
module GraphWindow {

  import opened Wrappers

  /** A sampled value: a number, or NaN where reading the displayed value failed. */
  datatype Reading = Value(x: real) | NaN

  /** One cell of the exported CSV. */
  datatype Cell = Label(text: string) | Time(t: real) | Entry(r: Reading) | Blank

  datatype ExportError = NoSamples

  /** The six value series, in export column order after the time column. */
  const SeriesCount: nat := 6

  class GraphWindow {
    var times: seq<real>
    var data1: seq<Reading>
    var data2: seq<Reading>
    var data3: seq<Reading>
    var dataI2r: seq<Reading>
    var dataSpeedLoss: seq<Reading>
    var dataTemp: seq<Reading>
    var startTime: Option<real>
    var running: bool
    /** The pending sampler call, as `after` identifies it. */
    var afterId: Option<nat>

    /** Every series holds one entry per sample time. */
    ghost predicate Valid()
      reads this
    {
      |data1| == |times| && |data2| == |times| && |data3| == |times| &&
      |dataI2r| == |times| && |dataSpeedLoss| == |times| && |dataTemp| == |times|
    }

    /** Value series k (0 to 5) in export column order. */
    function Series(k: nat): seq<Reading>
      requires k < SeriesCount
      reads this
    {
      [data1, data2, data3, dataI2r, dataSpeedLoss, dataTemp][k]
    }

    constructor ()
      ensures Valid() && times == [] && !running && startTime == None && afterId == None
      ensures data1 == [] && data2 == [] && data3 == [] && dataI2r == [] && dataSpeedLoss == [] && dataTemp == []
    {
      times := [];
      data1, data2, data3 := [], [], [];
      dataI2r, dataSpeedLoss, dataTemp := [], [], [];
      startTime := None;
      running := false;
      afterId := None;
    }

    /**
     * One sampler call at clock value `now`: nothing unless running; otherwise one entry
     * is appended to each of the seven series, time measured from the first sample, and
     * the next call is scheduled as `timer`.
     */
    method Sample(now: real, p1: Reading, p2: Reading, p3: Reading, pI2r: Reading, pSpeed: Reading, pTemp: Reading,
                  timer: nat)
      modifies this
      ensures !old(running) ==> unchanged(this)
      ensures old(running) ==>
                running && afterId == Some(timer) &&
                startTime == Some(if old(startTime).Some? then old(startTime).value else now) &&
                times == old(times) + [now - startTime.value] &&
                data1 == old(data1) + [p1] && data2 == old(data2) + [p2] && data3 == old(data3) + [p3] &&
                dataI2r == old(dataI2r) + [pI2r] && dataSpeedLoss == old(dataSpeedLoss) + [pSpeed] &&
                dataTemp == old(dataTemp) + [pTemp]
      ensures old(Valid()) ==> Valid()
    {
      if !running {
        return;
      }
      if startTime.None? {
        startTime := Some(now);
      }
      var t := now - startTime.value;
      times := times + [t];
      data1 := data1 + [p1];
      data2 := data2 + [p2];
      data3 := data3 + [p3];
      dataI2r := dataI2r + [pI2r];
      dataSpeedLoss := dataSpeedLoss + [pSpeed];
      dataTemp := dataTemp + [pTemp];
      afterId := Some(timer);
    }

    /**
     * Nothing while running; otherwise sets running, empties every series, forgets the
     * start time and takes the first sample, which is at time 0.
     */
    method Start(now: real, p1: Reading, p2: Reading, p3: Reading, pI2r: Reading, pSpeed: Reading, pTemp: Reading,
                 timer: nat)
      modifies this
      ensures old(running) ==> unchanged(this)
      ensures !old(running) ==>
                Valid() && running && afterId == Some(timer) && startTime == Some(now) && times == [0.0] &&
                data1 == [p1] && data2 == [p2] && data3 == [p3] &&
                dataI2r == [pI2r] && dataSpeedLoss == [pSpeed] && dataTemp == [pTemp]
    {
      if running {
        return;
      }
      running := true;
      times := [];
      data1, data2, data3 := [], [], [];
      dataI2r, dataSpeedLoss, dataTemp := [], [], [];
      startTime := None;
      Sample(now, p1, p2, p3, pI2r, pSpeed, pTemp, timer);
    }

    /** Nothing unless running; otherwise clears running and drops the pending sampler call. */
    method Stop()
      modifies this`running, this`afterId
      ensures !old(running) ==> running == old(running) && afterId == old(afterId)
      ensures old(running) ==> !running && afterId == None
    {
      if !running {
        return;
      }
      running := false;
      if afterId.Some? {
        afterId := None;
      }
    }

    /** Cell of series k in data row i: the entry, or '' when that series is shorter. */
    function CellAt(k: nat, i: nat): Cell
      requires k < SeriesCount
      reads this
    {
      if i < |Series(k)| then Entry(Series(k)[i]) else Blank
    }

    /** Data row i as exported: its sample time, then one cell per series. */
    ghost predicate ExportedRow(row: seq<Cell>, i: nat)
      requires i < |times|
      reads this
    {
      |row| == SeriesCount + 1 && row[0] == Time(times[i]) &&
      forall k | 0 <= k < SeriesCount :: row[k + 1] == CellAt(k, i)
    }

    /**
     * The rows `export_samples` writes: a header with the three chosen labels, then one
     * row per sample time. With no samples it refuses.
     */
    method ExportSamples(label1: string, label2: string, label3: string) returns (r: Result<seq<seq<Cell>>, ExportError>)
      ensures r.Failure? <==> times == []
      ensures r.Success? ==> |r.value| == |times| + 1
      ensures r.Success? ==>
                r.value[0] == [Label("time_s"), Label(label1), Label(label2), Label(label3),
                               Label("I2R Losses"), Label("Speed Losses"), Label("Temperature")]
      ensures r.Success? ==> forall i | 1 <= i < |r.value| :: ExportedRow(r.value[i], i - 1)
    {
      if times == [] {
        return Failure(NoSamples);
      }
      var rows := [[Label("time_s"), Label(label1), Label(label2), Label(label3),
                    Label("I2R Losses"), Label("Speed Losses"), Label("Temperature")]];
      for i := 0 to |times|
        invariant |rows| == i + 1
        invariant rows[0] == [Label("time_s"), Label(label1), Label(label2), Label(label3),
                              Label("I2R Losses"), Label("Speed Losses"), Label("Temperature")]
        invariant forall j | 1 <= j < |rows| :: ExportedRow(rows[j], j - 1)
      {
        var t := times[i];
        var v1 := if i < |data1| then Entry(data1[i]) else Blank;
        var v2 := if i < |data2| then Entry(data2[i]) else Blank;
        var v3 := if i < |data3| then Entry(data3[i]) else Blank;
        var vI2r := if i < |dataI2r| then Entry(dataI2r[i]) else Blank;
        var vSpeed := if i < |dataSpeedLoss| then Entry(dataSpeedLoss[i]) else Blank;
        var vTemp := if i < |dataTemp| then Entry(dataTemp[i]) else Blank;
        var row := [Time(t), v1, v2, v3, vI2r, vSpeed, vTemp];
        assert ExportedRow(row, i);
        rows := rows + [row];
      }
      r := Success(rows);
    }
  }

  /** While the series are kept equal in length, no exported cell is padded. */
  lemma ValidExportHasNoBlanks(w: GraphWindow, k: nat, i: nat)
    requires w.Valid() && k < SeriesCount && i < |w.times|
    ensures w.CellAt(k, i) == Entry(w.Series(k)[i])
  {
  }
}
