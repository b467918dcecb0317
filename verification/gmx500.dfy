/**
 * GMX500.py: the terminal recorder for the GMX500 anemometer with the 18-column
 * CSV layout, a battery warning file on the share, and a quit key.
 */
module Gmx500 {
  import opened Options
  import opened Text
  import opened FileSystem
  import opened Rotation
  import opened Readings

  const VoltageMin: real := 12.2
  const LocalDataPath: string := "/home/picarro/Wind_data"
  const RdriveFolder: string := "/mnt/r/crd_G9000/AVXxx/Roof_Tower_Data/Anemometer/GMX500"
  const WarningMsg: string := PathJoin(RdriveFolder, "battery_warning.txt")

  const HeaderColumns: seq<string> := [
    "epoch_time", "local_clock_time", "velocity_u_m/s", "velocity_v_m/s",
    "Direction", "Speed_m/s", "Corrected_Direction", "Corrected_Speed_m/s",
    "Pressure_hPa", "Relative_Humidity_%", "Temperature_C", "Dew_point_C",
    "GPS_Latitude", "GPS_longitude", "GPS_Height_m", "GPS_Time",
    "Supply_Voltage", "Battery_V"]

  /** `HEADER`: the 18 names separated by commas, then a newline. */
  const Header: string := CsvLine(HeaderColumns)

  const Cfg: Config := Config(Header, LocalDataPath, RdriveFolder)

  lemma HeaderFreeOfCommas()
    ensures FreeOf(HeaderColumns, ',')
  {
  }

  /** The header reads back as its 18 column names. */
  lemma HeaderColumnCount()
    ensures Columns(Header) == HeaderColumns && |HeaderColumns| == 18
  {
    HeaderFreeOfCommas();
    ColumnsOfCsvLine(HeaderColumns);
  }

  /**
   * Every conversion `record` makes on the comma fields `y` succeeds: at least
   * 14 fields, fields 3 and 5 are ints, fields 1, 2, 4, 6-10 and 13 are floats,
   * and field 11 has exactly three ':'-separated parts.
   */
  predicate Accepts(ns: NumberSyntax, y: seq<string>)
  {
    && |y| >= 14
    && ns.isFloat(y[1]) && ns.isFloat(y[2]) && ns.isInt(y[3]) && ns.isFloat(y[4])
    && ns.isInt(y[5]) && ns.isFloat(y[6]) && ns.isFloat(y[7]) && ns.isFloat(y[8])
    && ns.isFloat(y[9]) && ns.isFloat(y[10])
    && |Split(y[11], ':')| == 3
    && ns.isFloat(y[13])
  }

  /** The 18 values `record` formats, in header order; field 12 is copied as it is. */
  function Fields(ns: NumberSyntax, y: seq<string>, v: string, st: Stamp): seq<string>
    requires Accepts(ns, y)
  {
    var gps := Split(y[11], ':');
    [st.epoch, " " + st.clock,
     ns.showFloat(y[1]), ns.showFloat(y[2]), ns.showInt(y[3]), ns.showFloat(y[4]),
     ns.showInt(y[5]), ns.showFloat(y[6]), ns.showFloat(y[7]), ns.showFloat(y[8]),
     ns.showFloat(y[9]), ns.showFloat(y[10]),
     gps[0], gps[1], gps[2],
     y[12], ns.showFloat(y[13]), v]
  }

  /**
   * `record(x, v, local_file_path)`: the line to append, or `None` when one of
   * the conversions raises, which happens before the file is opened.
   */
  function Record(ns: NumberSyntax, x: string, v: string, st: Stamp): (r: Option<string>)
    ensures r.Some? <==> Accepts(ns, Split(x, ','))
    ensures r.Some? ==> |r.value| > 0 && r.value[|r.value| - 1] == '\n'
  {
    var y := Split(x, ',');
    if Accepts(ns, y) then Some(CsvLine(Fields(ns, y, v, st))) else None
  }

  /**
   * A written line reads back as the 18 formatted values, one under each header
   * column: the field count matches the header.
   */
  lemma RecordMatchesHeader(ns: NumberSyntax, x: string, v: string, st: Stamp)
    requires CommaFreeOutput(ns) && CommaFreeStamp(st) && ',' !in v
    requires Record(ns, x, v, st).Some?
    ensures Columns(Record(ns, x, v, st).value) == Fields(ns, Split(x, ','), v, st)
    ensures |Columns(Record(ns, x, v, st).value)| == |Columns(Header)| == 18
  {
    var y := Split(x, ',');
    var f := Fields(ns, y, v, st);
    assert ',' !in y[11] && ',' !in y[12];
    SplitPiecesFreeOf(y[11], ':', ',');
    assert ',' !in " " + st.clock;
    assert FreeOf(f, ',');
    ColumnsOfCsvLine(f);
    HeaderColumnCount();
  }

  /** `if v < VOLTAGE_MIN`: one warning line appended to the share file, when that write succeeds. */
  function Warn(fs: Fs, b: Battery, ctime: string, writable: bool): Fs
  {
    if b.value < VoltageMin && writable
    then Append(fs, WarningMsg, "! Warning, battery is dead: " + ctime + "\n")
    else fs
  }

  /** Appends the line `record` produced, or nothing at all. */
  function WriteRecord(fs: Fs, path: string, r: Option<string>): Fs
  {
    match r
    case Some(line) => Append(fs, path, line)
    case None => fs
  }

  /** What one pass of the `while 1` loop reads from the outside world. */
  datatype Step = Step(
    key: Option<char>,    // nbc.get_data()
    now: string,          // time.strftime("%Y%m%d_%H")
    closedOk: bool,       // outcome of the copy of the closed file
    retryOk: seq<bool>,   // outcomes of the retry pass
    quitOk: bool,         // outcome of the copy made by the quit key
    battery: Battery,
    ctime: string,        // time.ctime() in the warning
    warningOk: bool,      // whether the warning file could be written
    line: string,         // wind.readline().decode()
    stamp: Stamp)         // time.time() and clock time inside record

  datatype Status = Running | Quit(copied: bool) | Crashed

  /**
   * Start-up: a stale warning file on the share is removed when the module is
   * loaded, then `run_wind` opens its first file (the script passes `Cfg`).
   */
  method Launch(cfg: Config, now: string, fs0: Fs) returns (rec: Recorder)
    ensures fresh(rec) && rec.cfg == cfg && rec.Valid()
    ensures rec.Snap() == Start(cfg, now, RemoveFile(fs0, WarningMsg))
  {
    var fs := fs0;
    if WarningMsg in fs.files {
      fs := RemoveFile(fs, WarningMsg);
    }
    rec := new Recorder(cfg, now, fs);
  }

  /**
   * A pass of the `while 1` loop of `run_wind` without the quit key:
   * the hourly check, the battery warning, then one reading recorded or dropped whole.
   * `crashed` is an `os.mkdir` error escaping the loop.
   */
  method Pass(rec: Recorder, ns: NumberSyntax, step: Step) returns (crashed: bool)
    requires rec.Valid()
    modifies rec
    ensures var r := Rotate(rec.cfg, old(rec.Snap()), step.now, step.closedOk, step.retryOk);
            crashed <==> r.0 == DayFolderExists
    ensures crashed ==> rec.Snap() == Rotate(rec.cfg, old(rec.Snap()), step.now, step.closedOk, step.retryOk).1
    ensures !crashed ==>
              var r := Rotate(rec.cfg, old(rec.Snap()), step.now, step.closedOk, step.retryOk);
              var fs1 := Warn(r.1.fs, step.battery, step.ctime, step.warningOk);
              var written := Record(ns, step.line, step.battery.text, step.stamp);
              && rec.Valid()
              && rec.Snap() == r.1.(fs := WriteRecord(fs1, r.1.localFilePath, written))
  {
    var outcome := rec.Tick(step.now, step.closedOk, step.retryOk);
    if outcome == DayFolderExists {
      return true;
    }
    WarnAndRecord(rec, ns, step);
    return false;
  }

  /** The battery warning (lines 172-178), then `record` on the line read (lines 181-186). */
  method WarnAndRecord(rec: Recorder, ns: NumberSyntax, step: Step)
    requires rec.Valid()
    modifies rec
    ensures rec.Valid()
    ensures var written := Record(ns, step.line, step.battery.text, step.stamp);
            rec.Snap() == old(rec.Snap()).(fs := WriteRecord(Warn(old(rec.fs), step.battery, step.ctime, step.warningOk), rec.localFilePath, written))
  {
    if step.battery.value < VoltageMin && step.warningOk {
      rec.AppendTo(WarningMsg, "! Warning, battery is dead: " + step.ctime + "\n");
    }
    var written := Record(ns, step.line, step.battery.text, step.stamp);
    if written.Some? {
      rec.AppendTo(rec.localFilePath, written.value);
    }
  }

  /** One pass of the `while 1` loop: the quit key copies the last file and exits, otherwise `Pass`. */
  method Iterate(rec: Recorder, ns: NumberSyntax, step: Step) returns (status: Status)
    requires rec.Valid()
    modifies rec
    ensures step.key == Some('q') ==>
              var src, dst := QuitPath(rec.cfg, old(rec.filename)), DayFolder(rec.cfg.remoteRoot, old(rec.filename));
              var copied := step.quitOk && src in old(rec.fs).files && (dst in old(rec.fs).dirs || rec.cfg.remoteRoot in old(rec.fs).dirs);
              && status == Quit(copied)
              && rec.Snap() == old(rec.Snap()).(fs := if copied then Copy2(old(rec.fs), src, dst) else old(rec.fs))
    ensures step.key != Some('q') ==>
              && (status == Crashed <==> Rotate(rec.cfg, old(rec.Snap()), step.now, step.closedOk, step.retryOk).0 == DayFolderExists)
              && (status == Running ==> rec.Valid())
  {
    if step.key == Some('q') {
      var copied := rec.CopyLastFile(step.quitOk);
      return Quit(copied);
    }
    var crashed := Pass(rec, ns, step);
    status := if crashed then Crashed else Running;
  }
}
