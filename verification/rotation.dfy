/**
 * The hourly rotation-and-mirror routine of `run_wind` (GMX500.py, windGMX500.py)
 * and of `Worker.run` (gui_GMX500.py).  The three copies differ only in the CSV
 * header and in the two roots, which `Config` carries.
 *
 * `Rotate` is the reference definition of one check of the loop; `Recorder` is
 * the loop's state as the scripts keep it (`filename`, `local_folder_day`,
 * `r_folder_day`, `local_file_path`, `uncopied`), updated step by step, and its
 * `Tick` is proved to follow `Rotate`.
 */
module Rotation {
  import opened Options
  import opened Text
  import opened FileSystem
  import opened MirrorQueue

  /** Header written at the top of every CSV, local data root, network-share root. */
  datatype Config = Config(header: string, localRoot: string, remoteRoot: string)

  /** The loop variables of `run_wind`, and the file system they refer to. */
  datatype Snapshot = Snapshot(
    filename: string,        // "YYYYMMDD_HH" of the open file
    localFolderDay: string,  // local folder the open file lives in
    rFolderDay: string,      // share folder the open file is copied to
    localFilePath: string,   // the open file
    uncopied: seq<Task>,     // copies still to retry
    fs: Fs)

  /** How one check of the loop ends; `DayFolderExists` is an `os.mkdir` error that escapes the loop. */
  datatype TickOutcome = Kept | Rotated | DayFolderExists

  /** `now[-2:] != filename[-2:]`: only the hour digits are compared. */
  predicate ShouldRotate(now: string, filename: string)
  {
    Last2(now) != Last2(filename)
  }

  /** `now[-2:] == "00" and filename[-2:] == "23"`: the only transition that switches day folders. */
  predicate StartsNewDay(now: string, filename: string)
  {
    Last2(now) == "00" && Last2(filename) == "23"
  }

  /** `os.path.join(root, stamp[:8])` */
  function DayFolder(root: string, stamp: string): string
  {
    PathJoin(root, Take8(stamp))
  }

  /** `os.path.join(folder, name + ".csv")` */
  function CsvPath(folder: string, name: string): string
  {
    PathJoin(folder, name + ".csv")
  }

  /**
   * What holds between checks: the open file is `filename + ".csv"` in the local
   * day folder and starts with the header, both day folders exist, and every
   * queued copy can still be carried out.
   */
  ghost predicate Inv(cfg: Config, s: Snapshot)
  {
    && s.localFilePath == CsvPath(s.localFolderDay, s.filename)
    && s.localFolderDay in s.fs.dirs
    && s.rFolderDay in s.fs.dirs
    && s.localFilePath in s.fs.files
    && cfg.header <= s.fs.files[s.localFilePath]
    && Copyable(s.fs, s.uncopied)
  }

  /** Start-up: guarded creation of both day folders and a fresh file holding only the header. */
  function Start(cfg: Config, now: string, fs: Fs): (s: Snapshot)
    ensures Inv(cfg, s)
    ensures s.filename == now && s.uncopied == []
    ensures s.localFolderDay == DayFolder(cfg.localRoot, now) && s.rFolderDay == DayFolder(cfg.remoteRoot, now)
    ensures s.fs.files == fs.files[s.localFilePath := cfg.header]
  {
    var local := DayFolder(cfg.localRoot, now);
    var path := CsvPath(local, now);
    var remote := DayFolder(cfg.remoteRoot, now);
    Snapshot(now, local, remote, path, [], EnsureDir(Overwrite(EnsureDir(fs, local), path, cfg.header), remote))
  }

  /** The list after the one copy attempt of the closed file: a failure appends its pair. */
  function Queued(s: Snapshot, closedOk: bool): seq<Task>
  {
    if closedOk then s.uncopied else s.uncopied + [Task(s.localFilePath, s.rFolderDay)]
  }

  /** The file system after the one copy attempt of the closed file. */
  function AfterClosedCopy(s: Snapshot, closedOk: bool): Fs
    requires s.localFilePath in s.fs.files
  {
    if closedOk then Copy(s.fs, s.localFilePath, s.rFolderDay) else s.fs
  }

  lemma PrefixGrows(a: string, b: string, c: string)
    requires a <= b && b <= c
    ensures a <= c
  {
    assert c[..|b|][..|a|] == c[..|a|];
  }

  /** Growing the file system keeps every queued copy possible. */
  lemma CopyableGrows(fs: Fs, fs': Fs, q: seq<Task>)
    requires Copyable(fs, q)
    requires fs.files.Keys <= fs'.files.Keys && fs.dirs <= fs'.dirs
    ensures Copyable(fs', q)
  {
  }

  lemma QueuedCopyable(cfg: Config, s: Snapshot, closedOk: bool)
    requires Inv(cfg, s)
    ensures Copyable(AfterClosedCopy(s, closedOk), Queued(s, closedOk))
  {
    CopyableGrows(s.fs, AfterClosedCopy(s, closedOk), s.uncopied);
  }

  /** The new hour's file: `filename = now`, its path, and its text truncated to the header. */
  function Open(cfg: Config, now: string, local: string, remote: string, q: seq<Task>, fs: Fs): (s: Snapshot)
    ensures s.filename == now && s.localFolderDay == local && s.localFilePath == CsvPath(local, now)
    ensures s.localFilePath in s.fs.files && s.fs.files[s.localFilePath] == cfg.header
  {
    var path := CsvPath(local, now);
    Snapshot(now, local, remote, path, q, Overwrite(fs, path, cfg.header))
  }

  /**
   * One check of the loop with clock reading `now`: whether to rotate; the
   * single copy of the closed file (outcome `closedOk`); the retry pass over
   * `uncopied` (outcomes `retryOk`); the unguarded day-folder creation on
   * 23 -> 00 only; and the new file.  An `os.mkdir` that raises leaves the
   * variables as they were at that point.
   */
  function Rotate(cfg: Config, s: Snapshot, now: string, closedOk: bool, retryOk: seq<bool>): (r: (TickOutcome, Snapshot))
    requires Inv(cfg, s)
    ensures r.0 == Kept <==> !ShouldRotate(now, s.filename)
    ensures r.0 == Kept ==> r.1 == s
  {
    if !ShouldRotate(now, s.filename) then (Kept, s)
    else
      QueuedCopyable(cfg, s, closedOk);
      var pass := RetryPass(Queued(s, closedOk), AfterClosedCopy(s, closedOk), retryOk);
      var q2, fs2 := pass.0, pass.1;
      if StartsNewDay(now, s.filename) then
        var local := DayFolder(cfg.localRoot, now);
        match MakeDir(fs2, local)
        case None => (DayFolderExists, s.(localFolderDay := local, uncopied := q2, fs := fs2))
        case Some(fs3) =>
          var remote := DayFolder(cfg.remoteRoot, now);
          match MakeDir(fs3, remote)
          case None => (DayFolderExists, s.(localFolderDay := local, rFolderDay := remote, uncopied := q2, fs := fs3))
          case Some(fs4) => (Rotated, Open(cfg, now, local, remote, q2, fs4))
      else (Rotated, Open(cfg, now, s.localFolderDay, s.rFolderDay, q2, fs2))
  }

  /**
   * After a rotation the list is a suffix of the old list followed, when the
   * copy of the closed file failed, by the pair (old `local_file_path`, old
   * `r_folder_day`): order is kept and nothing else is added.
   */
  lemma RotateQueue(cfg: Config, s: Snapshot, now: string, closedOk: bool, retryOk: seq<bool>)
    requires Inv(cfg, s) && ShouldRotate(now, s.filename)
    ensures IsSuffix(Rotate(cfg, s, now, closedOk, retryOk).1.uncopied, Queued(s, closedOk))
  {
    QueuedCopyable(cfg, s, closedOk);
    RetryPassIsSuffix(Queued(s, closedOk), AfterClosedCopy(s, closedOk), retryOk);
  }

  /**
   * When the copy of the closed file and every retry fail, the closed file's pair
   * ends up last in the list, naming the share folder in use before the check,
   * even when the check switches day folders.
   */
  lemma RotateFailedCopyStaysQueued(cfg: Config, s: Snapshot, now: string, retryOk: seq<bool>)
    requires Inv(cfg, s) && ShouldRotate(now, s.filename)
    requires forall j :: 0 <= j <= |s.uncopied| ==> !Succeeds(retryOk, j)
    ensures Rotate(cfg, s, now, false, retryOk).1.uncopied == s.uncopied + [Task(s.localFilePath, s.rFolderDay)]
  {
    QueuedCopyable(cfg, s, false);
    RetryPassAllFail(Queued(s, false), AfterClosedCopy(s, false), retryOk);
  }

  /**
   * The day folders switch to `now[:8]` exactly on a 23 -> 00 rotation; any
   * other rotation (22 -> 01 across midnight included) keeps the old ones.
   */
  lemma RotateDayFolders(cfg: Config, s: Snapshot, now: string, closedOk: bool, retryOk: seq<bool>)
    requires Inv(cfg, s)
    ensures var r := Rotate(cfg, s, now, closedOk, retryOk);
            r.0 == Rotated ==>
              if StartsNewDay(now, s.filename)
              then r.1.localFolderDay == DayFolder(cfg.localRoot, now) && r.1.rFolderDay == DayFolder(cfg.remoteRoot, now)
              else r.1.localFolderDay == s.localFolderDay && r.1.rFolderDay == s.rFolderDay
  {
  }

  /**
   * After a rotation, `filename == now`, the open file is `now + ".csv"` in the
   * local day folder, and its text is exactly the header, whatever it held before.
   */
  lemma RotateNewFile(cfg: Config, s: Snapshot, now: string, closedOk: bool, retryOk: seq<bool>)
    requires Inv(cfg, s)
    ensures var r := Rotate(cfg, s, now, closedOk, retryOk);
            r.0 == Rotated ==>
              && r.1.filename == now
              && r.1.localFilePath == CsvPath(r.1.localFolderDay, now)
              && r.1.fs.files[r.1.localFilePath] == cfg.header
  {
    if ShouldRotate(now, s.filename) && StartsNewDay(now, s.filename) {
      QueuedCopyable(cfg, s, closedOk);
      var pass := RetryPass(Queued(s, closedOk), AfterClosedCopy(s, closedOk), retryOk);
      var m1 := MakeDir(pass.1, DayFolder(cfg.localRoot, now));
      if m1.Some? {
        var m2 := MakeDir(m1.value, DayFolder(cfg.remoteRoot, now));
        if m2.Some? {
          assert Rotate(cfg, s, now, closedOk, retryOk).1
              == Open(cfg, now, DayFolder(cfg.localRoot, now), DayFolder(cfg.remoteRoot, now), pass.0, m2.value);
        }
      }
    }
  }

  /**
   * The day-change `os.mkdir` calls are not guarded: the check fails exactly
   * when, on a 23 -> 00 rotation, either new day folder already exists (or both
   * roots name the same folder).
   */
  lemma RotateDayFolderExists(cfg: Config, s: Snapshot, now: string, closedOk: bool, retryOk: seq<bool>)
    requires Inv(cfg, s)
    ensures var local, remote := DayFolder(cfg.localRoot, now), DayFolder(cfg.remoteRoot, now);
            Rotate(cfg, s, now, closedOk, retryOk).0 == DayFolderExists <==>
              && ShouldRotate(now, s.filename) && StartsNewDay(now, s.filename)
              && (local in s.fs.dirs || remote in s.fs.dirs || local == remote)
  {
    if ShouldRotate(now, s.filename) {
      QueuedCopyable(cfg, s, closedOk);
      var fs1 := AfterClosedCopy(s, closedOk);
      assert fs1.dirs == s.fs.dirs;
      var pass := RetryPass(Queued(s, closedOk), fs1, retryOk);
      assert pass.1.dirs == s.fs.dirs;
    }
  }

  /** A check that does not fail keeps the invariant. */
  lemma RotateKeepsInv(cfg: Config, s: Snapshot, now: string, closedOk: bool, retryOk: seq<bool>)
    requires Inv(cfg, s)
    ensures var r := Rotate(cfg, s, now, closedOk, retryOk); r.0 != DayFolderExists ==> Inv(cfg, r.1)
  {
    var r := Rotate(cfg, s, now, closedOk, retryOk);
    if r.0 == Rotated {
      QueuedCopyable(cfg, s, closedOk);
      var fs1 := AfterClosedCopy(s, closedOk);
      var pass := RetryPass(Queued(s, closedOk), fs1, retryOk);
      assert pass.1.dirs == s.fs.dirs;
      CopyableGrows(pass.1, r.1.fs, pass.0);
    }
  }

  /** The same hour on another day does not rotate: the open file is kept. */
  lemma SameHourNextDayKeepsFile(cfg: Config, s: Snapshot, closedOk: bool, retryOk: seq<bool>)
    requires Inv(cfg, s) && s.filename == "20241010_14"
    ensures Rotate(cfg, s, "20241011_14", closedOk, retryOk) == (Kept, s)
  {
  }

  /** `os.path.join(LOCAL_DATA_PATH, filename[:8], filename + ".csv")`, the file the quit key copies. */
  function QuitPath(cfg: Config, filename: string): string
  {
    CsvPath(DayFolder(cfg.localRoot, filename), filename)
  }

  /**
   * The quit path names the open file exactly when the local day folder is the
   * one `filename[:8]` names; after a rotation that crossed midnight without a
   * 23 -> 00 step the two differ.
   */
  lemma QuitPathIsOpenFile(cfg: Config, s: Snapshot)
    requires Inv(cfg, s)
    ensures QuitPath(cfg, s.filename) == s.localFilePath <==> s.localFolderDay == DayFolder(cfg.localRoot, s.filename)
  {
    if QuitPath(cfg, s.filename) == s.localFilePath {
      PathJoinCancel(DayFolder(cfg.localRoot, s.filename), s.localFolderDay, s.filename + ".csv");
    }
  }

  /**
   * A 22 -> 01 rotation across midnight (an hour with no check in it) writes the
   * new file into the previous day's folder, and the quit path then names a
   * different file.  No folder is created, so a share folder missing for the
   * new day stays missing, and the quit key's copy then writes a file onto
   * that folder's path (`CopyLastFile`).
   */
  lemma MidnightSkipUsesOldFolder(cfg: Config, s: Snapshot, closedOk: bool, retryOk: seq<bool>)
    requires Inv(cfg, s) && s.filename == "20241010_22"
    requires s.localFolderDay == DayFolder(cfg.localRoot, s.filename)
    ensures var r := Rotate(cfg, s, "20241011_01", closedOk, retryOk);
            && r.0 == Rotated
            && r.1.localFolderDay == s.localFolderDay
            && r.1.rFolderDay == s.rFolderDay && r.1.fs.dirs == s.fs.dirs
            && QuitPath(cfg, r.1.filename) != r.1.localFilePath
  {
    var now := "20241011_01";
    var r := Rotate(cfg, s, now, closedOk, retryOk);
    RotateKeepsInv(cfg, s, now, closedOk, retryOk);
    var d0, d1 := DayFolder(cfg.localRoot, s.filename), DayFolder(cfg.localRoot, now);
    assert Take8(s.filename) == "20241010" && Take8(now) == "20241011";
    assert d0[|cfg.localRoot| + 8] != d1[|cfg.localRoot| + 8];
    QuitPathIsOpenFile(cfg, r.1);
  }

  /** The loop state of `run_wind` / `Worker.run`, updated in place. */
  class Recorder {
    const cfg: Config
    var filename: string
    var localFolderDay: string
    var rFolderDay: string
    var localFilePath: string
    var uncopied: seq<Task>
    var fs: Fs

    function Snap(): Snapshot
      reads this
    {
      Snapshot(filename, localFolderDay, rFolderDay, localFilePath, uncopied, fs)
    }

    ghost predicate Valid()
      reads this
    {
      Inv(cfg, Snap())
    }

    /** Start-up with clock reading `now` (GMX500.py lines 99-114). */
    constructor (cfg: Config, now: string, fs0: Fs)
      ensures this.cfg == cfg && Snap() == Start(cfg, now, fs0)
      ensures Valid()
    {
      var local := DayFolder(cfg.localRoot, now);
      var fs1 := EnsureDir(fs0, local);
      var path := CsvPath(local, now);
      fs1 := Overwrite(fs1, path, cfg.header);
      var remote := DayFolder(cfg.remoteRoot, now);
      fs1 := EnsureDir(fs1, remote);
      this.cfg := cfg;
      filename, localFolderDay, rFolderDay, localFilePath := now, local, remote, path;
      uncopied, fs := [], fs1;
    }

    /** `try: shutil.copy2(local_file_path, r_folder_day) except: uncopied.append(...)` */
    method CopyClosedFile(ok: bool)
      requires Valid()
      modifies this
      ensures uncopied == Queued(old(Snap()), ok) && fs == AfterClosedCopy(old(Snap()), ok)
      ensures filename == old(filename) && localFolderDay == old(localFolderDay)
      ensures rFolderDay == old(rFolderDay) && localFilePath == old(localFilePath)
    {
      if ok {
        fs := Copy(fs, localFilePath, rFolderDay);
      } else {
        uncopied := uncopied + [Task(localFilePath, rFolderDay)];
      }
    }

    /** The retry pass: `for i in range(len(uncopied))`, each iteration retrying `uncopied[0]`. */
    method RetryUncopied(ok: seq<bool>)
      requires Copyable(fs, uncopied)
      modifies this
      ensures (uncopied, fs) == RetryPass(old(uncopied), old(fs), ok)
      ensures filename == old(filename) && localFolderDay == old(localFolderDay)
      ensures rFolderDay == old(rFolderDay) && localFilePath == old(localFilePath)
    {
      var n := |uncopied|;
      for i := 0 to n
        invariant Copyable(fs, uncopied)
        invariant RetryFrom(uncopied, fs, ok, i, n) == RetryFrom(old(uncopied), old(fs), ok, 0, n)
        invariant filename == old(filename) && localFolderDay == old(localFolderDay)
        invariant rFolderDay == old(rFolderDay) && localFilePath == old(localFilePath)
      {
        if uncopied != [] && Succeeds(ok, i) {
          var fs' := Copy(fs, uncopied[0].src, uncopied[0].dstDir);
          assert Copyable(fs', uncopied[1..]) by {
            forall t | t in uncopied[1..] ensures t.src in fs'.files && t.dstDir in fs'.dirs {
              assert t in uncopied;
            }
          }
          fs := fs';
          uncopied := uncopied[1..];
        }
      }
    }

    /**
     * The unguarded `os.mkdir` of both new day folders (GMX500.py lines 153-160);
     * each folder variable is assigned before its `os.mkdir` runs.
     */
    method SwitchDayFolders(now: string) returns (made: bool)
      modifies this
      ensures var local, remote := DayFolder(cfg.localRoot, now), DayFolder(cfg.remoteRoot, now);
              var m1 := MakeDir(old(fs), local);
              && localFolderDay == local
              && made == (m1.Some? && MakeDir(m1.value, remote).Some?)
              && rFolderDay == (if m1.Some? then remote else old(rFolderDay))
              && fs == (if m1.None? then old(fs) else if made then MakeDir(m1.value, remote).value else m1.value)
      ensures filename == old(filename) && localFilePath == old(localFilePath) && uncopied == old(uncopied)
    {
      localFolderDay := DayFolder(cfg.localRoot, now);
      var m := MakeDir(fs, localFolderDay);
      if m.None? {
        return false;
      }
      fs := m.value;
      rFolderDay := DayFolder(cfg.remoteRoot, now);
      m := MakeDir(fs, rFolderDay);
      if m.None? {
        return false;
      }
      fs := m.value;
      return true;
    }

    /** One check of the loop with clock reading `now` (GMX500.py lines 131-165). */
    method Tick(now: string, closedOk: bool, retryOk: seq<bool>) returns (outcome: TickOutcome)
      requires Valid()
      modifies this
      ensures (outcome, Snap()) == Rotate(cfg, old(Snap()), now, closedOk, retryOk)
      ensures outcome != DayFolderExists ==> Valid()
    {
      ghost var s0 := Snap();
      RotateKeepsInv(cfg, s0, now, closedOk, retryOk);
      if Last2(now) == Last2(filename) {
        return Kept;
      }
      QueuedCopyable(cfg, s0, closedOk);
      ghost var pass := RetryPass(Queued(s0, closedOk), AfterClosedCopy(s0, closedOk), retryOk);
      CopyClosedFile(closedOk);
      if uncopied != [] {
        RetryUncopied(retryOk);
      }
      assert uncopied == pass.0 && fs == pass.1;
      if Last2(now) == "00" && Last2(filename) == "23" {
        var made := SwitchDayFolders(now);
        if !made {
          return DayFolderExists;
        }
      }
      filename := now;
      localFilePath := CsvPath(localFolderDay, filename);
      fs := Overwrite(fs, localFilePath, cfg.header);
      return Rotated;
    }

    /** `with open(p, "a") as f: f.write(text)`. */
    method AppendTo(p: string, text: string)
      requires Valid()
      modifies this
      ensures Valid()
      ensures Snap() == old(Snap()).(fs := Append(old(fs), p, text))
    {
      fs := Append(fs, p, text);
      CopyableGrows(old(fs), fs, uncopied);
      PrefixGrows(cfg.header, old(fs).files[localFilePath], fs.files[localFilePath]);
    }

    /**
     * The quit key: `shutil.copy2` of the file `QuitPath` names to the share
     * folder of `filename[:8]` (lines 119-128).  When that folder is missing,
     * copy2 writes the file onto the folder's path in the share root instead.
     */
    method CopyLastFile(ok: bool) returns (copied: bool)
      requires Valid()
      modifies this
      ensures var src, dst := QuitPath(cfg, filename), DayFolder(cfg.remoteRoot, filename);
              && copied == (ok && src in old(fs).files && (dst in old(fs).dirs || cfg.remoteRoot in old(fs).dirs))
              && fs == (if copied then Copy2(old(fs), src, dst) else old(fs))
      ensures Snap() == old(Snap()).(fs := fs)
    {
      var src := QuitPath(cfg, filename);
      var dst := DayFolder(cfg.remoteRoot, filename);
      copied := ok && src in fs.files && (dst in fs.dirs || cfg.remoteRoot in fs.dirs);
      if copied {
        fs := Copy2(fs, src, dst);
      }
    }
  }
}
