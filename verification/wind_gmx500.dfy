/**
 * windGMX500.py: the terminal recorder variant with a 15-column CSV layout,
 * no type checks on the fields, and no battery warning file.
 */
module WindGmx500 {
  import opened Options
  import opened Text
  import opened FileSystem
  import opened Rotation
  import opened Readings

  const LocalDataPath: string := "/home/picarro/Wind_data"
  const RdriveFolder: string := "/mnt/r/crd_G9000/AVXxx/Roof_Tower_Data/Anemometer/GMX500"

  const HeaderColumns: seq<string> := [
    "epoch_time", "local_clock_time", "Direction", "Speed_m/s",
    "Corrected_Direction", "Corrected_Speed_m/s", "Pressure_hPa",
    "Relative_Humidity_%", "Temperature_C", "Dew_point_C",
    "GPS_Latitude", "GPS_longitude", "GPS_Height_m",
    "Supply_Voltage", "Battery_V"]

  /** `HEADER`: the 15 names separated by commas, then a newline. */
  const Header: string := CsvLine(HeaderColumns)

  const Cfg: Config := Config(Header, LocalDataPath, RdriveFolder)

  lemma HeaderFreeOfCommas()
    ensures FreeOf(HeaderColumns, ',')
  {
  }

  /** The header reads back as its 15 column names. */
  lemma HeaderColumnCount()
    ensures Columns(Header) == HeaderColumns && |HeaderColumns| == 15
  {
    HeaderFreeOfCommas();
    ColumnsOfCsvLine(HeaderColumns);
  }

  /**
   * The 15 values `record` writes: fields 1-8 as they are, the first three
   * ':'-parts of field 9, field 11, the battery text; field 10 is skipped.
   */
  function Fields(y: seq<string>, z: seq<string>, v: string, st: Stamp): seq<string>
    requires |y| >= 12 && |z| >= 3
  {
    [st.epoch, " " + st.clock] + y[1..9] + z[..3] + [y[11], v]
  }

  /**
   * `record(x, v, local_file_path)`: `y[9]` is split first, then the write
   * indexes `y[1..8]`, `z[0..2]` and `y[11]`; any missing index raises before
   * anything is written.
   */
  function Record(x: string, v: string, st: Stamp): (r: Option<string>)
    ensures var y := Split(x, ',');
            r.None? <==> |y| < 12 || |Split(y[9], ':')| < 3
  {
    var y := Split(x, ',');
    if |y| < 10 then None
    else
      var z := Split(y[9], ':');
      if |z| < 3 || |y| < 12 then None
      else Some(CsvLine(Fields(y, z, v, st)))
  }

  /**
   * A written line reads back as the stamp, fields 1-8 verbatim, the first three
   * GPS parts (extra parts dropped), field 11 and the battery text: 15 columns,
   * one under each header name.
   */
  lemma RecordVerbatim(x: string, v: string, st: Stamp)
    requires CommaFreeStamp(st) && ',' !in v
    requires Record(x, v, st).Some?
    ensures var y := Split(x, ',');
            var z := Split(y[9], ':');
            && Columns(Record(x, v, st).value) == [st.epoch, " " + st.clock] + y[1..9] + z[..3] + [y[11], v]
            && |Columns(Record(x, v, st).value)| == |Columns(Header)| == 15
  {
    var y := Split(x, ',');
    var z := Split(y[9], ':');
    var f := Fields(y, z, v, st);
    SplitPiecesFreeOf(y[9], ':', ',');
    assert ',' !in " " + st.clock;
    assert FreeOf(f, ',') by {
      forall i | 0 <= i < |f| ensures ',' !in f[i] {
        if 2 <= i < 10 {
          assert f[i] == y[i - 1];
        } else if 10 <= i < 13 {
          assert f[i] == z[i - 10];
        }
      }
    }
    ColumnsOfCsvLine(f);
    HeaderColumnCount();
  }

  /** Appends the line `record` produced, or nothing at all. */
  function WriteRecord(fs: Fs, path: string, r: Option<string>): Fs
  {
    match r
    case Some(line) => Append(fs, path, line)
    case None => fs
  }

  /** What one pass of the `while 1` loop reads from the outside world. */
  datatype Step = Step(
    key: Option<char>,    // nbc.get_data()
    now: string,          // time.strftime("%Y%m%d_%H")
    closedOk: bool,       // outcome of the copy of the closed file
    retryOk: seq<bool>,   // outcomes of the retry pass
    quitOk: bool,         // outcome of the copy made by the quit key
    battery: Battery,
    line: string,         // wind.readline().decode()
    stamp: Stamp)         // time.time() and clock time inside record

  datatype Status = Running | Quit(copied: bool) | Crashed

  /**
   * A pass of the `while 1` loop of `run_wind` without the quit key:
   * the hourly check, then one reading recorded or dropped whole (the battery reading is only shown on the terminal).
   * `crashed` is an `os.mkdir` error escaping the loop.
   */
  method Pass(rec: Recorder, step: Step) returns (crashed: bool)
    requires rec.Valid()
    modifies rec
    ensures var r := Rotate(rec.cfg, old(rec.Snap()), step.now, step.closedOk, step.retryOk);
            crashed <==> r.0 == DayFolderExists
    ensures crashed ==> rec.Snap() == Rotate(rec.cfg, old(rec.Snap()), step.now, step.closedOk, step.retryOk).1
    ensures !crashed ==>
              var r := Rotate(rec.cfg, old(rec.Snap()), step.now, step.closedOk, step.retryOk);
              var written := Record(step.line, step.battery.text, step.stamp);
              && rec.Valid()
              && rec.Snap() == r.1.(fs := WriteRecord(r.1.fs, r.1.localFilePath, written))
  {
    var outcome := rec.Tick(step.now, step.closedOk, step.retryOk);
    if outcome == DayFolderExists {
      return true;
    }
    var written := Record(step.line, step.battery.text, step.stamp);
    if written.Some? {
      rec.AppendTo(rec.localFilePath, written.value);
    }
    return false;
  }

  /** One pass of the `while 1` loop: the quit key copies the last file and exits, otherwise `Pass`. */
  method Iterate(rec: Recorder, step: Step) returns (status: Status)
    requires rec.Valid()
    modifies rec
    ensures step.key == Some('q') ==>
              var src, dst := QuitPath(rec.cfg, old(rec.filename)), DayFolder(rec.cfg.remoteRoot, old(rec.filename));
              var copied := step.quitOk && src in old(rec.fs).files && (dst in old(rec.fs).dirs || rec.cfg.remoteRoot in old(rec.fs).dirs);
              && status == Quit(copied)
              && rec.Snap() == old(rec.Snap()).(fs := if copied then Copy2(old(rec.fs), src, dst) else old(rec.fs))
    ensures step.key != Some('q') ==>
              && (status == Crashed <==> Rotate(rec.cfg, old(rec.Snap()), step.now, step.closedOk, step.retryOk).0 == DayFolderExists)
              && (status == Running ==> rec.Valid())
  {
    if step.key == Some('q') {
      var copied := rec.CopyLastFile(step.quitOk);
      return Quit(copied);
    }
    var crashed := Pass(rec, step);
    status := if crashed then Crashed else Running;
  }
}
