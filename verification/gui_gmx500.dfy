/**
 * gui_GMX500.py, `Worker.run`: the recorder thread of the GUI variant.  It runs
 * the same hourly rotation as the terminal scripts, announces every file name
 * through `progress`, keeps two bounded plot buffers, and writes a reading only
 * when every conversion of the 16-column layout succeeds.
 */
module GuiGmx500 {
  import opened Options
  import opened Text
  import opened FileSystem
  import opened Rotation
  import opened Readings
  import opened Buffers

  const LocalDataPath: string := "/home/picarro/Wind_data"
  const PlotWindowWind: nat := 10  // minutes of wind data in the wind rose
  const PlotWindowV: nat := 6      // hours of battery data in the voltage plot
  const IntervalV: nat := 5        // minutes between two battery points

  /** `total_wind_pts = PLOT_WINDOW_WIND * 60`, 600 wind entries. */
  const TotalWindPts: nat := PlotWindowWind * 60
  /** `total_v_pts = int(60 / INTERVAL_V * PLOT_WINDOW_V)`, 72 battery points; 60 / 5 is exact. */
  const TotalVPts: nat := 60 / IntervalV * PlotWindowV

  const HeaderColumns: seq<string> := [
    "epoch_time", "local_clock_time", "Direction", "Speed_m/s",
    "Corrected_Direction", "Corrected_Speed_m/s", "Pressure_hPa",
    "Relative_Humidity_%", "Temperature_C", "Dew_point_C",
    "GPS_Latitude", "GPS_longitude", "GPS_Height_m", "GPS_Time",
    "Supply_Voltage", "Battery_V"]

  /** `HEADER`: the 16 names separated by commas, then a newline. */
  const Header: string := CsvLine(HeaderColumns)

  lemma HeaderFreeOfCommas()
    ensures FreeOf(HeaderColumns, ',')
  {
  }

  /** The header reads back as its 16 column names. */
  lemma HeaderColumnCount()
    ensures Columns(Header) == HeaderColumns && |HeaderColumns| == 16
  {
    HeaderFreeOfCommas();
    ColumnsOfCsvLine(HeaderColumns);
  }

  /**
   * Every conversion of the inline parse succeeds on the comma fields `y`: at
   * least 12 fields, fields 1 and 3 are ints, 2 and 4-8 are floats, field 9
   * has exactly three ':'-parts, and field 11 is a float.
   */
  predicate Accepts(ns: NumberSyntax, y: seq<string>)
  {
    && |y| >= 12
    && ns.isInt(y[1]) && ns.isFloat(y[2]) && ns.isInt(y[3]) && ns.isFloat(y[4])
    && ns.isFloat(y[5]) && ns.isFloat(y[6]) && ns.isFloat(y[7]) && ns.isFloat(y[8])
    && |Split(y[9], ':')| == 3
    && ns.isFloat(y[11])
  }

  /** The 16 values written, in header order; field 10 is copied as it is. */
  function Fields(ns: NumberSyntax, y: seq<string>, v: string, st: Stamp): seq<string>
    requires Accepts(ns, y)
  {
    var gps := Split(y[9], ':');
    [st.epoch, " " + st.clock,
     ns.showInt(y[1]), ns.showFloat(y[2]), ns.showInt(y[3]), ns.showFloat(y[4]),
     ns.showFloat(y[5]), ns.showFloat(y[6]), ns.showFloat(y[7]), ns.showFloat(y[8]),
     gps[0], gps[1], gps[2],
     y[10], ns.showFloat(y[11]), v]
  }

  /** The line the parse appends to the open file, or `None` when a conversion raises first. */
  function Record(ns: NumberSyntax, x: string, v: string, st: Stamp): (r: Option<string>)
    ensures r.Some? <==> Accepts(ns, Split(x, ','))
    ensures r.Some? ==> |r.value| > 0 && r.value[|r.value| - 1] == '\n'
  {
    var y := Split(x, ',');
    if Accepts(ns, y) then Some(CsvLine(Fields(ns, y, v, st))) else None
  }

  /** A written line reads back as the 16 values, one under each header name. */
  lemma RecordMatchesHeader(ns: NumberSyntax, x: string, v: string, st: Stamp)
    requires CommaFreeOutput(ns) && CommaFreeStamp(st) && ',' !in v
    requires Record(ns, x, v, st).Some?
    ensures Columns(Record(ns, x, v, st).value) == Fields(ns, Split(x, ','), v, st)
    ensures |Columns(Record(ns, x, v, st).value)| == |Columns(Header)| == 16
  {
    var y := Split(x, ',');
    var f := Fields(ns, y, v, st);
    assert ',' !in y[9] && ',' !in y[10];
    SplitPiecesFreeOf(y[9], ':', ',');
    assert ',' !in " " + st.clock;
    assert FreeOf(f, ',');
    ColumnsOfCsvLine(f);
    HeaderColumnCount();
  }

  /** The header, the local root, and the share folder read from `par1/rdrive.txt`. */
  function ScriptConfig(rdrive: string): Config
  {
    Config(Header, LocalDataPath, rdrive)
  }

  /** One wind rose entry: `[wind_dir, wind_speed]`. */
  datatype WindPoint = WindPoint(direction: string, speed: string)

  /** One battery plot entry: `[epoch, round(v, 2)]`. */
  datatype VoltPoint = VoltPoint(time: real, volts: real)

  /** The wind rose entry of an accepted line: corrected direction and corrected speed. */
  function PointOf(ns: NumberSyntax, x: string): WindPoint
    requires Accepts(ns, Split(x, ','))
  {
    var y := Split(x, ',');
    WindPoint(ns.showInt(y[3]), ns.showFloat(y[4]))
  }

  /** A battery point is due when more than `INTERVAL_V` minutes have passed since the last one. */
  predicate VoltDue(t: real, timeTag: real)
  {
    t - timeTag > (IntervalV * 60) as real
  }

  /** What one pass of the `while True` loop reads from the outside world. */
  datatype Step = Step(
    stop: bool,           // the global `stoprun`
    clear: bool,          // the global `clearplot`
    stamp: Stamp,         // time.time() and the clock time, taken at the top of the pass
    now: string,          // time.strftime("%Y%m%d_%H")
    closedOk: bool,       // outcome of the copy of the closed file
    retryOk: seq<bool>,   // outcomes of the retry pass
    battery: Battery,
    line: string)         // wind.readline().decode()

  /** `Finished`: the loop broke and `finished` was emitted; `Crashed`: an `os.mkdir` error ended the thread. */
  datatype Status = Running | Finished | Crashed

  class Worker {
    const rec: Recorder
    var progress: seq<string>       // every name emitted through `progress`, in order
    var windPlot: seq<WindPoint>    // plot_data_wind
    var voltPlot: seq<VoltPoint>    // plot_data_v
    var timeTag: real               // time_tag
    ghost var windSeen: seq<WindPoint>  // wind entries added since the last clear
    ghost var voltSeen: seq<VoltPoint>  // battery entries added since the last clear

    /** The recorder state holds, and each buffer is the last `cap` entries added since the last clear. */
    ghost predicate Valid()
      reads this, rec
    {
      rec.Valid() && BuffersValid()
    }

    /** Each buffer is the last `cap` entries added since the last clear. */
    ghost predicate BuffersValid()
      reads this
    {
      && windPlot == Recent(windSeen, TotalWindPts)
      && voltPlot == Recent(voltSeen, TotalVPts)
    }

    /**
     * Start of `run` (the script passes `ScriptConfig(rdrive)`): the first name
     * is emitted before its file exists, the files are opened as in the terminal
     * scripts, and the battery buffer starts with two readings stamped with the
     * start time.
     */
    constructor (cfg: Config, now: string, fs0: Fs, start: real, b0: Battery, b1: Battery)
      ensures Valid()
      ensures rec.cfg == cfg && rec.Snap() == Start(cfg, now, fs0)
      ensures progress == [now] && windPlot == [] && timeTag == start
      ensures voltPlot == [VoltPoint(start, b0.value2), VoltPoint(start, b1.value2)]
    {
      rec := new Recorder(cfg, now, fs0);
      progress := [now];
      windPlot, windSeen := [], [];
      voltPlot := [VoltPoint(start, b0.value2), VoltPoint(start, b1.value2)];
      voltSeen := voltPlot;
      timeTag := start;
      new;
      assert BuffersValid();
    }

    /** `if clearplot:` both buffers are emptied; the flag itself is an input read once per pass. */
    method ClearPlots(clear: bool)
      requires Valid()
      modifies this
      ensures Valid()
      ensures windSeen == (if clear then [] else old(windSeen)) && voltSeen == (if clear then [] else old(voltSeen))
      ensures progress == old(progress) && timeTag == old(timeTag)
    {
      if clear {
        windPlot, windSeen := [], [];
        voltPlot, voltSeen := [], [];
        assert BuffersValid();
      }
    }

    /**
     * The hourly check, then `self.progress.emit(filename)` on a rotation:
     * when the name is emitted its file already holds exactly the header.
     */
    method CheckHour(now: string, closedOk: bool, retryOk: seq<bool>) returns (outcome: TickOutcome)
      requires Valid()
      modifies rec, this
      ensures (outcome, rec.Snap()) == Rotate(rec.cfg, old(rec.Snap()), now, closedOk, retryOk)
      ensures progress == old(progress) + (if outcome == Rotated then [now] else [])
      ensures outcome == Rotated ==> rec.fs.files[rec.localFilePath] == rec.cfg.header
      ensures outcome != DayFolderExists ==> Valid()
      ensures windPlot == old(windPlot) && voltPlot == old(voltPlot) && timeTag == old(timeTag)
      ensures windSeen == old(windSeen) && voltSeen == old(voltSeen)
    {
      RotateNewFile(rec.cfg, rec.Snap(), now, closedOk, retryOk);
      outcome := rec.Tick(now, closedOk, retryOk);
      if outcome == Rotated {
        progress := progress + [rec.filename];
      }
    }

    /** `if epoch - time_tag > INTERVAL_V * 60`: one battery point, capped at `total_v_pts`. */
    method SampleVoltage(t: real, b: Battery)
      requires Valid()
      modifies this
      ensures Valid()
      ensures voltSeen == old(voltSeen) + (if VoltDue(t, old(timeTag)) then [VoltPoint(t, b.value2)] else [])
      ensures timeTag == if VoltDue(t, old(timeTag)) then t else old(timeTag)
      ensures windPlot == old(windPlot) && windSeen == old(windSeen) && progress == old(progress)
    {
      if t - timeTag > (IntervalV * 60) as real {
        var p := VoltPoint(t, b.value2);
        PushCappedRecent(voltSeen, p, TotalVPts);
        voltPlot := voltPlot + [p];
        if |voltPlot| > TotalVPts {
          voltPlot := voltPlot[1..];
        }
        voltSeen := voltSeen + [p];
        timeTag := t;
        assert BuffersValid();
      }
    }

    /**
     * The `try` block: parse the line, append it to the open file, then add the
     * wind rose entry; a line that fails a conversion writes and adds nothing.
     */
    method RecordReading(ns: NumberSyntax, x: string, b: Battery, st: Stamp)
      requires Valid()
      modifies rec, this
      ensures Valid()
      ensures var r := Record(ns, x, b.text, st);
              && rec.Snap() == old(rec.Snap()).(fs := if r.Some? then Append(old(rec.fs), rec.localFilePath, r.value) else old(rec.fs))
              && windSeen == old(windSeen) + (if r.Some? then [PointOf(ns, x)] else [])
      ensures voltPlot == old(voltPlot) && voltSeen == old(voltSeen)
      ensures timeTag == old(timeTag) && progress == old(progress)
    {
      var r := Record(ns, x, b.text, st);
      if r.Some? {
        rec.AppendTo(rec.localFilePath, r.value);
        PushWind(PointOf(ns, x));
      }
    }

    /** `plot_data_wind.append(...)`, then `pop(0)` past `total_wind_pts`. */
    method PushWind(p: WindPoint)
      requires BuffersValid()
      modifies this
      ensures BuffersValid()
      ensures windSeen == old(windSeen) + [p]
      ensures voltPlot == old(voltPlot) && voltSeen == old(voltSeen)
      ensures timeTag == old(timeTag) && progress == old(progress)
    {
      PushCappedRecent(windSeen, p, TotalWindPts);
      windPlot := windPlot + [p];
      if |windPlot| > TotalWindPts {
        windPlot := windPlot[1..];
      }
      windSeen := windSeen + [p];
    }

    /**
     * The body of one pass that does not stop: the clear flag, the hourly check,
     * the battery point, then one reading recorded or dropped whole.
     */
    method Pass(ns: NumberSyntax, step: Step) returns (crashed: bool)
      requires Valid()
      modifies rec, this
      ensures crashed <==> Rotate(rec.cfg, old(rec.Snap()), step.now, step.closedOk, step.retryOk).0 == DayFolderExists
      ensures !crashed ==>
                var r := Rotate(rec.cfg, old(rec.Snap()), step.now, step.closedOk, step.retryOk);
                var w := Record(ns, step.line, step.battery.text, step.stamp);
                && progress == old(progress) + (if r.0 == Rotated then [step.now] else [])
                && rec.Snap() == r.1.(fs := if w.Some? then Append(r.1.fs, r.1.localFilePath, w.value) else r.1.fs)
      ensures !crashed ==>
                var w := Record(ns, step.line, step.battery.text, step.stamp);
                windSeen == (if step.clear then [] else old(windSeen)) + (if w.Some? then [PointOf(ns, step.line)] else [])
      ensures !crashed ==>
                var due := VoltDue(step.stamp.time, old(timeTag));
                && voltSeen == (if step.clear then [] else old(voltSeen)) + (if due then [VoltPoint(step.stamp.time, step.battery.value2)] else [])
                && timeTag == if due then step.stamp.time else old(timeTag)
      ensures !crashed ==> Valid()
    {
      ClearPlots(step.clear);
      var outcome := CheckHour(step.now, step.closedOk, step.retryOk);
      if outcome == DayFolderExists {
        return true;
      }
      SampleVoltage(step.stamp.time, step.battery);
      RecordReading(ns, step.line, step.battery, step.stamp);
      return false;
    }

    /** One pass of the `while True` loop of `run`: `if stoprun: break`, otherwise `Pass`. */
    method Iterate(ns: NumberSyntax, step: Step) returns (status: Status)
      requires Valid()
      modifies rec, this
      ensures step.stop ==> status == Finished && rec.Snap() == old(rec.Snap()) && progress == old(progress)
      ensures !step.stop ==>
                (status == Crashed <==> Rotate(rec.cfg, old(rec.Snap()), step.now, step.closedOk, step.retryOk).0 == DayFolderExists)
      ensures status != Crashed ==> Valid()
    {
      if step.stop {
        return Finished;
      }
      var crashed := Pass(ns, step);
      status := if crashed then Crashed else Running;
    }
  }
}
