/**
 * wind_gui.py: the older GUI recorder.  Its worker rotates the hourly file but
 * retries the copy of the closed file in a busy loop instead of queueing it,
 * its day-folder test can never be true, and a bad line ends the thread.  The
 * window shows the last few minutes of the open file with one tick per minute.
 */
module WindGui {
  import opened Options
  import opened Text
  import opened FileSystem
  import opened Readings
  import opened Buffers
  import opened Rotation

  const DataRate: nat := 4      // Hz
  const PlotWindow: nat := 5    // minutes on display
  const LocalDataPath: string := "/home/picarro/Wind_data"

  const HeaderColumns: seq<string> :=
    ["epoch_time", "local_clock_time", "U_velocity_NS", "V_velocity_WE", "speed", "direction"]

  /** `HEADER`: the six names separated by commas, then a newline. */
  const Header: string := CsvLine(HeaderColumns)

  /** The header reads back as its six column names. */
  lemma HeaderColumnCount()
    ensures Columns(Header) == HeaderColumns && |HeaderColumns| == 6
  {
    assert FreeOf(HeaderColumns, ',');
    ColumnsOfCsvLine(HeaderColumns);
  }

  /** The header, the local root, and the share folder read from `par1/rdrive.txt`. */
  function ScriptConfig(rdrivePath: string): Config
  {
    Config(Header, LocalDataPath, rdrivePath)
  }

  /** A Python value as far as `==` needs it here. */
  datatype PyValue = Str(s: string) | Int(i: int)

  /** Python's `==`: a str never equals an int. */
  predicate PyEq(a: PyValue, b: PyValue)
  {
    match (a, b)
    case (Str(x), Str(y)) => x == y
    case (Int(x), Int(y)) => x == y
    case _ => false
  }

  /** `(now[-2:] == 0) and (filename[-2:] == 23)`: a str compared with an int, so never true. */
  predicate DayTest(now: string, filename: string)
    ensures !DayTest(now, filename)
  {
    PyEq(Str(Last2(now)), Int(0)) && PyEq(Str(Last2(filename)), Int(23))
  }

  /** `np.sqrt(u**2 + v**2)` and `wind_uv_to_dir(u, v)`, formatted, as functions of the two field texts. */
  datatype UvFormulas = UvFormulas(speed: (string, string) -> string, direction: (string, string) -> string)

  ghost predicate CommaFreeUv(uv: UvFormulas)
  {
    forall a, b :: ',' !in uv.speed(a, b) && ',' !in uv.direction(a, b)
  }

  /** The reading of line `x`: `float(y[1])` and `float(y[2])` must succeed, or the thread dies. */
  function Reading(ns: NumberSyntax, uv: UvFormulas, x: string, st: Stamp): (r: Option<string>)
    ensures var y := Split(x, ',');
            r.None? <==> |y| < 3 || !ns.isFloat(y[1]) || !ns.isFloat(y[2])
  {
    var y := Split(x, ',');
    if |y| < 2 || !ns.isFloat(y[1]) then None
    else if |y| < 3 || !ns.isFloat(y[2]) then None
    else Some(CsvLine([st.epoch, " " + st.clock, ns.showFloat(y[1]), ns.showFloat(y[2]),
                       uv.speed(y[1], y[2]), uv.direction(y[1], y[2])]))
  }

  /** A written line reads back as six columns, one under each header name. */
  lemma ReadingMatchesHeader(ns: NumberSyntax, uv: UvFormulas, x: string, st: Stamp)
    requires CommaFreeOutput(ns) && CommaFreeUv(uv) && CommaFreeStamp(st)
    requires Reading(ns, uv, x, st).Some?
    ensures var y := Split(x, ',');
            Columns(Reading(ns, uv, x, st).value)
              == [st.epoch, " " + st.clock, ns.showFloat(y[1]), ns.showFloat(y[2]),
                  uv.speed(y[1], y[2]), uv.direction(y[1], y[2])]
    ensures |Columns(Reading(ns, uv, x, st).value)| == |Columns(Header)| == 6
  {
    var y := Split(x, ',');
    var f := [st.epoch, " " + st.clock, ns.showFloat(y[1]), ns.showFloat(y[2]),
              uv.speed(y[1], y[2]), uv.direction(y[1], y[2])];
    assert ',' !in " " + st.clock;
    assert FreeOf(f, ',');
    ColumnsOfCsvLine(f);
    HeaderColumnCount();
  }

  /** The index of the first success among copy attempts. */
  function FirstSuccess(outcomes: seq<bool>): (k: nat)
    requires true in outcomes
    ensures k < |outcomes| && outcomes[k]
    ensures forall j :: 0 <= j < k ==> !outcomes[j]
  {
    if outcomes[0] then 0 else FirstSuccess(outcomes[1..]) + 1
  }

  /**
   * `while True: try: shutil.copy2(...); break  except: ...` with the outcome of
   * each attempt read from `outcomes`; running out of outcomes means the loop
   * is still spinning.
   */
  method RetryCopy(outcomes: seq<bool>) returns (copied: bool, attempts: nat)
    ensures copied <==> true in outcomes
    ensures copied ==> attempts == FirstSuccess(outcomes) + 1
    ensures !copied ==> attempts == |outcomes|
  {
    attempts := 0;
    while attempts < |outcomes|
      invariant attempts <= |outcomes|
      invariant forall j :: 0 <= j < attempts ==> !outcomes[j]
    {
      if outcomes[attempts] {
        return true, attempts + 1;
      }
      attempts := attempts + 1;
    }
    return false, attempts;
  }

  /** What one pass of the `while True` loop reads from the outside world. */
  datatype Step = Step(
    stop: bool,            // the global `stoprun`
    stamp: Stamp,          // time.time() and the clock time to the millisecond
    now: string,           // time.strftime("%Y%m%d_%H")
    copyOk: seq<bool>,     // outcomes of the attempts of the copy loop
    line: string)          // wind.readline().decode()

  /**
   * `Finished`: the loop broke and `finished` was emitted; `Blocked`: the copy
   * loop has not succeeded yet; `Crashed`: a bad line raised out of `run`.
   */
  datatype Status = Running | Finished | Blocked | Crashed

  class Worker {
    const cfg: Config
    var filename: string
    var folderPath: string
    var filePath: string
    var rdriveFolder: string
    var fs: Fs
    var progress: seq<string>    // every name emitted through `progress`, in order

    ghost predicate Valid()
      reads this
    {
      && filePath == CsvPath(folderPath, filename)
      && folderPath in fs.dirs && rdriveFolder in fs.dirs
      && filePath in fs.files
      && cfg.header <= fs.files[filePath]
    }

    /** Start of `run` (the script passes `ScriptConfig(rdrive_path)`): as in the other recorders. */
    constructor (cfg: Config, now: string, fs0: Fs)
      ensures Valid() && this.cfg == cfg && progress == [now]
      ensures var s := Start(cfg, now, fs0);
              && filename == now && folderPath == s.localFolderDay && rdriveFolder == s.rFolderDay
              && filePath == s.localFilePath && fs == s.fs
    {
      var local := DayFolder(cfg.localRoot, now);
      var fs1 := EnsureDir(fs0, local);
      var path := CsvPath(local, now);
      fs1 := Overwrite(fs1, path, cfg.header);
      var remote := DayFolder(cfg.remoteRoot, now);
      fs1 := EnsureDir(fs1, remote);
      this.cfg := cfg;
      filename, folderPath, filePath, rdriveFolder := now, local, path, remote;
      fs, progress := fs1, [now];
    }

    /**
     * The day-folder test (never true), then the hourly rotation: the closed
     * file is copied by the blocking loop, and only once a copy succeeds is the
     * new file opened and its name emitted.
     */
    method CheckHour(now: string, copyOk: seq<bool>) returns (blocked: bool)
      requires Valid()
      modifies this
      ensures folderPath == old(folderPath) && rdriveFolder == old(rdriveFolder)
      ensures blocked <==> ShouldRotate(now, old(filename)) && true !in copyOk
      ensures blocked ==> fs == old(fs) && filename == old(filename) && progress == old(progress)
      ensures !blocked ==>
                var rotated := ShouldRotate(now, old(filename));
                && filename == (if rotated then now else old(filename))
                && progress == old(progress) + (if rotated then [now] else [])
                && fs == if rotated then Overwrite(Copy(old(fs), old(filePath), old(rdriveFolder)), CsvPath(old(folderPath), now), cfg.header)
                         else old(fs)
      ensures Valid()
    {
      if DayTest(now, filename) {
        assert false;
      }
      if Last2(now) != Last2(filename) {
        var copied, _ := RetryCopy(copyOk);
        if !copied {
          return true;
        }
        fs := Copy(fs, filePath, rdriveFolder);
        filename := now;
        filePath := CsvPath(folderPath, filename);
        fs := Overwrite(fs, filePath, cfg.header);
        progress := progress + [filename];
      }
      return false;
    }

    /** The reading of one line appended to the open file; a line that fails to convert raises. */
    method RecordLine(ns: NumberSyntax, uv: UvFormulas, x: string, st: Stamp) returns (crashed: bool)
      requires Valid()
      modifies this
      ensures var r := Reading(ns, uv, x, st);
              && (crashed <==> r.None?)
              && fs == (if r.Some? then Append(old(fs), filePath, r.value) else old(fs))
      ensures filename == old(filename) && filePath == old(filePath) && progress == old(progress)
      ensures folderPath == old(folderPath) && rdriveFolder == old(rdriveFolder)
      ensures Valid()
    {
      var r := Reading(ns, uv, x, st);
      if r.None? {
        return true;
      }
      var old_ := fs.files[filePath];
      fs := Append(fs, filePath, r.value);
      PrefixGrows(cfg.header, old_, fs.files[filePath]);
      return false;
    }

    /** The pass after the stop test: the hourly check, then one reading. */
    method Pass(ns: NumberSyntax, uv: UvFormulas, step: Step) returns (status: Status)
      requires Valid()
      modifies this
      ensures status != Finished
      ensures folderPath == old(folderPath) && rdriveFolder == old(rdriveFolder)
      ensures status == Blocked <==> ShouldRotate(step.now, old(filename)) && true !in step.copyOk
      ensures status == Blocked ==> fs == old(fs) && filename == old(filename) && progress == old(progress)
      ensures status == Running || status == Crashed ==>
                var rotated := ShouldRotate(step.now, old(filename));
                var fs1 := if rotated then Overwrite(Copy(old(fs), old(filePath), old(rdriveFolder)), CsvPath(old(folderPath), step.now), cfg.header)
                           else old(fs);
                var r := Reading(ns, uv, step.line, step.stamp);
                && filename == (if rotated then step.now else old(filename))
                && progress == old(progress) + (if rotated then [step.now] else [])
                && (status == Crashed <==> r.None?)
                && fs == (if r.Some? then Append(fs1, filePath, r.value) else fs1)
      ensures status != Crashed ==> Valid()
    {
      var blocked := CheckHour(step.now, step.copyOk);
      if blocked {
        return Blocked;
      }
      var crashed := RecordLine(ns, uv, step.line, step.stamp);
      status := if crashed then Crashed else Running;
    }

    /** One pass of the `while True` loop of `run`: `if stoprun: break`, otherwise `Pass`. */
    method Iterate(ns: NumberSyntax, uv: UvFormulas, step: Step) returns (status: Status)
      requires Valid()
      modifies this
      ensures step.stop <==> status == Finished
      ensures step.stop ==> fs == old(fs) && progress == old(progress)
      ensures folderPath == old(folderPath) && rdriveFolder == old(rdriveFolder)
      ensures status == Running ==> Valid()
    {
      if step.stop {
        return Finished;
      }
      status := Pass(ns, uv, step);
    }
  }

  /** `n = PLOT_WINDOW * DATA_RATE * 60`: the 1200 rows on display. */
  const WindowRows: nat := PlotWindow * DataRate * 60

  /** `DATA_RATE * 60`: the 240 rows between two ticks. */
  const TickStride: nat := DataRate * 60

  /** `rows[::k]`: rows `0, k, 2k, ...`. */
  function EveryNth<T>(rows: seq<T>, k: nat): (r: seq<T>)
    requires k > 0
    ensures rows == [] <==> r == []
    decreases |rows|
  {
    if rows == [] then []
    else if |rows| <= k then [rows[0]]
    else [rows[0]] + EveryNth(rows[k..], k)
  }

  /**
   * Exactly the multiples of `k` below `|rows|` are taken, so there are
   * `ceil(|rows| / k)` rows in the stride.
   */
  lemma {:induction false} EveryNthLength<T>(rows: seq<T>, k: nat)
    requires k > 0
    ensures rows != [] ==> (|EveryNth(rows, k)| - 1) * k < |rows| <= |EveryNth(rows, k)| * k
    decreases |rows|
  {
    if |rows| > k {
      var rest := rows[k..];
      EveryNthLength(rest, k);
      var n := |EveryNth(rest, k)|;
      assert |EveryNth(rows, k)| == n + 1;
      assert (n - 1) * k + k == n * k;
      assert n * k + k == (n + 1) * k;
    }
  }

  /** The `j`-th row of the stride is row `j * k`. */
  lemma {:induction false} EveryNthElements<T>(rows: seq<T>, k: nat)
    requires k > 0
    ensures forall j :: 0 <= j < |EveryNth(rows, k)| ==> j * k < |rows| && EveryNth(rows, k)[j] == rows[j * k]
    decreases |rows|
  {
    var r := EveryNth(rows, k);
    if |rows| > k {
      var rest := rows[k..];
      EveryNthElements(rest, k);
      forall j | 0 < j < |r|
        ensures j * k < |rows| && r[j] == rows[j * k]
      {
        assert r[j] == EveryNth(rest, k)[j - 1];
        assert (j - 1) * k + k == j * k;
      }
    }
  }

  /**
   * The ticks of `plot_wind`: every `DATA_RATE * 60`-th row of the displayed
   * window (the last `n` rows when there are more), starting with its first row.
   */
  function TickRows<T>(rows: seq<T>): (r: seq<T>)
    ensures var w := Recent(rows, WindowRows);
            && (w == [] <==> r == [])
            && (w != [] ==> (|r| - 1) * TickStride < |w| <= |r| * TickStride)
            && forall j :: 0 <= j < |r| ==> j * TickStride < |w| && r[j] == w[j * TickStride]
  {
    var w := Recent(rows, WindowRows);
    EveryNthLength(w, TickStride);
    EveryNthElements(w, TickStride);
    EveryNth(Recent(rows, WindowRows), TickStride)
  }

  /** The label loop of `plot_wind`: one `'%H:%M'` label per tick, in tick order. */
  method TickLabels(xx: seq<real>, clock: real -> string) returns (xmak: seq<string>)
    ensures |xmak| == |xx|
    ensures forall i :: 0 <= i < |xx| ==> xmak[i] == clock(xx[i])
  {
    xmak := [];
    for i := 0 to |xx|
      invariant |xmak| == i
      invariant forall j :: 0 <= j < i ==> xmak[j] == clock(xx[j])
    {
      xmak := xmak + [clock(xx[i])];
    }
  }
}
