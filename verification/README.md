# WindPi recorders in Dafny

WindPi is a set of Raspberry Pi scripts that record a wind anemometer. They
read one line per sample from the serial port and append the values it
carries, with a time stamp, to an hourly CSV file under
`/home/picarro/Wind_data/YYYYMMDD/`. The three GMX500 scripts also append the
battery voltage to each line; `wind_gui.py` writes six fields instead: the
time stamps, the two wind components, and the speed and direction computed
from them. Every hour they copy the closed file to a
day folder on a mounted network share (the "R drive"). Four scripts do this:

- `GMX500.py` and `windGMX500.py`, terminal recorders with a quit key;
- `gui_GMX500.py`, a Qt recorder whose worker thread also feeds two plots;
- `wind_gui.py`, an older Qt recorder for a two-axis sensor.

This project models the core they share and proves what it does.

- `Rotation` is the hourly rotation-and-mirror routine. The pure function
  `Rotate` is the reference definition of one check. The class `Recorder`
  holds the loop variables (`filename`, `local_folder_day`, `r_folder_day`,
  `local_file_path`, `uncopied`) and the file system, and updates them step
  by step. Its `Tick` is proved equal to `Rotate`.
- `MirrorQueue` is the retry pass over `uncopied`. It retries the head of the
  list `len(uncopied)` times; it does not walk the list. The pass has a closed
  form, and its consequences are proved.
- `Gmx500`, `WindGmx500`, `GuiGmx500` and `WindGui` each model one script's
  `record` parse, its header, and one pass of its main loop. `GuiGmx500.Worker`
  adds the `progress` signal and the two bounded plot buffers. `WindGui.Worker`
  keeps its own variables, because that script has no queue and blocks until
  the copy succeeds.
- `GuiWindow` models three routines of the Qt window: the clean-up of old day
  folders, the half-hour ticks of the battery plot, and the battery-state
  indicator.
- `FileSystem`, `Text`, `Readings`, `Buffers` and `Options` hold the shared
  vocabulary. The file system is a set of directories plus a map from path to
  file text. `Text` has Python's `split`/`join`, slices and POSIX paths.

Everything outside the program is an input. The clock is given as
already-formatted strings and epoch values. The keyboard is an optional
character. Serial lines and voltages are given as values. Each
`shutil.copy2` outcome comes from a sequence of booleans. Number parsing is
the parameter `NumberSyntax`: `isInt`/`isFloat` say whether `int()`/`float()`
succeed, and `showInt`/`showFloat` give `str()` of the result. Every property
is proved for all such syntaxes.

Where a comment and the code disagree, the model follows the code. The comment
above the `gui_GMX500.py` header says 15 items, but the header has 16 names,
and the parse writes 16 values.

## Model

| member | source | states |
|---|---|---|
| `FileSystem.MakeDir` | GMX500.py:156 | `os.mkdir` fails exactly when the folder already exists. On success the directories gain exactly that folder and no file changes. |
| `FileSystem.EnsureDir` | GMX500.py:102-103 | The guarded creation never fails. Afterwards the folder exists and the files are unchanged. |
| `FileSystem.Append` | GMX500.py:89 | Appending creates the file if needed and changes no directory. The file's text is its old text (empty when it was absent) followed by the appended text; every other file is unchanged. |
| `FileSystem.RemoveFile` | GMX500.py:47-48 | Afterwards the warning file is absent; every other file and every directory is unchanged. |
| `FileSystem.Copy` | GMX500.py:137 | The copy lands as `dst/basename(src)` with the source's text. No other file changes, and no directory changes. |
| `FileSystem.CopyOnto` | GMX500.py:125 | Copying onto a path gives that path the source's text and changes no other file and no directory. |
| `FileSystem.Copy2` | GMX500.py:125 | `shutil.copy2` into an existing directory is `Copy`. Onto a path that is not a directory, it creates or replaces a file at that path holding the source's text, and nothing else changes. |
| `FileSystem.CopyTargetOfJoin` | GMX500.py:137 | The copy of `dir/name` lands as `dstDir/name`. |
| `Text.Split` | GMX500.py:70 | `split` yields at least one piece, and no piece contains the separator. |
| `Readings.ColumnsOfCsvLine` | GMX500.py:91-95 | A line written from comma-free fields reads back as exactly those fields. |
| `MirrorQueue.RetryFrom` | GMX500.py:143-150 | Every iteration of the pass keeps every queued copy possible and creates no directory. |
| `MirrorQueue.RetryFromClosedForm` | GMX500.py:143-150 | The pass drops `min(len, successes)` entries from the front. The file system is then the result of copying exactly those entries, in order. |
| `MirrorQueue.RetryPassIsSuffix` | GMX500.py:143-150 | After the pass the list is a suffix of the list before it: same order, nothing added. The number removed equals the successful attempts, capped by the length. |
| `MirrorQueue.RetryPassAllFail` | GMX500.py:143-150 | When every attempt fails, the list and the files are unchanged. |
| `MirrorQueue.RetryPassAllSucceed` | GMX500.py:143-150 | When every attempt succeeds, the list empties and every entry is copied in list order. |
| `MirrorQueue.RetryPassFailureBlocksTail` | GMX500.py:143-150 | One failing attempt anywhere in the pass leaves the last entry uncopied, because every attempt targets the head. |
| `Rotation.Start` | GMX500.py:98-114 | Start-up creates both day folders for `filename[:8]` when missing, writes exactly the header to the new file, and starts with an empty queue. Its result satisfies the loop invariant. |
| `Rotation.Open` | GMX500.py:162-165 | The new file is `now + ".csv"` in the given local folder, `filename == now`, and the file's text is exactly the header. |
| `Rotation.Rotate` | GMX500.py:131-165 | A check keeps the state unchanged exactly when the hour digits `now[-2:]` and `filename[-2:]` are equal. |
| `Rotation.RotateQueue` | GMX500.py:136-150 | After a rotation, `uncopied` is a suffix of the old list followed, when the closed file's copy failed, by that file's pair. |
| `Rotation.RotateFailedCopyStaysQueued` | GMX500.py:136-160 | When the closed file's copy and every retry fail, the list is the old list plus the pair (old `local_file_path`, old `r_folder_day`). This holds even when the check switches day folders. |
| `Rotation.RotateDayFolders` | GMX500.py:152-160 | After a rotation the day folders are those of `now[:8]` exactly on a 23 -> 00 hour change; on every other rotation they are kept. |
| `Rotation.RotateNewFile` | GMX500.py:162-165 | After a rotation `filename == now`, the open file is `now + ".csv"` in the local day folder, and its text is exactly the header, whatever it held before. |
| `Rotation.RotateDayFolderExists` | GMX500.py:153-160 | The unguarded `os.mkdir` raises exactly on a 23 -> 00 rotation where either new day folder already exists, or both roots name the same folder. |
| `Rotation.RotateKeepsInv` | GMX500.py:131-165 | A check that does not raise keeps the invariant. The open file is in the local day folder and starts with the header. Both day folders exist. Every queued copy can still be carried out. |
| `Rotation.SameHourNextDayKeepsFile` | GMX500.py:134 | `20241011_14` after `20241010_14` does not rotate: the state is unchanged. |
| `Rotation.QuitPathIsOpenFile` | GMX500.py:122 | The quit key's recomputed path names the open file exactly when the local day folder is the one `filename[:8]` names. |
| `Rotation.MidnightSkipUsesOldFolder` | windGMX500.py:129-139 | A 22 -> 01 rotation across midnight writes the new file into the previous day's folder, keeps the old share folder and creates no folder. The quit path then names a different file. |
| `Rotation.Recorder.constructor` | GMX500.py:98-114 | The recorder's variables and file system are those of `Start`. |
| `Rotation.Recorder.CopyClosedFile` | GMX500.py:136-140 | One copy attempt of the closed file. On failure its pair is appended to `uncopied`; on success the share gets the copy. |
| `Rotation.Recorder.RetryUncopied` | GMX500.py:143-150 | The `for` loop leaves `uncopied` and the files equal to `RetryPass` of their old values. |
| `Rotation.Recorder.SwitchDayFolders` | GMX500.py:153-160 | Each folder variable is assigned before its `os.mkdir`. A failing first `mkdir` leaves the share folder variable unchanged. |
| `Rotation.Recorder.Tick` | GMX500.py:131-165 | The in-place loop body gives exactly the outcome and state of `Rotate`, and keeps the invariant unless `mkdir` raised. |
| `Rotation.Recorder.AppendTo` | GMX500.py:175-176 | An append changes only the file system, and keeps the invariant. |
| `Rotation.Recorder.CopyLastFile` | GMX500.py:119-128 | The quit key copies `LOCAL_DATA_PATH/filename[:8]/filename.csv` to the share folder of `filename[:8]`. The copy succeeds exactly when the oracle allows it, the source exists, and the share folder or, failing that, the share root exists. When the share folder is missing, `copy2` writes a file onto the folder's path. |
| `Gmx500.HeaderColumnCount` | GMX500.py:26-43 | The header reads back as its 18 column names. |
| `Gmx500.Record` | GMX500.py:69-95 | `record` appends a newline-terminated line exactly when every conversion succeeds: at least 14 fields, the int/float pattern, field 11 in exactly three `:`-parts, and field 13 a float. Otherwise nothing is written. |
| `Gmx500.RecordMatchesHeader` | GMX500.py:91-95 | A written line reads back as the 18 formatted values, as many as the header has columns. |
| `Gmx500.Launch` | GMX500.py:46-48 | A stale warning file is removed at load time. The recorder then starts as `Start` on the cleaned file system. |
| `Gmx500.Pass` | GMX500.py:131-186 | One pass without the quit key raises exactly when `Rotate` reports an existing day folder. Otherwise the state is the rotated one, plus the battery warning and the record line, each appended or not. |
| `Gmx500.WarnAndRecord` | GMX500.py:167-186 | Below `VOLTAGE_MIN`, one warning line is appended to the share file when it is writable. Then the record line is appended, or nothing when a conversion fails. The invariant is kept. |
| `Gmx500.Iterate` | GMX500.py:116-186 | The `q` key copies the last file and ends the run. Otherwise the pass goes on, or raises exactly when `Rotate` reports an existing day folder. |
| `WindGmx500.HeaderColumnCount` | windGMX500.py:23-37 | The header reads back as its 15 column names. |
| `WindGmx500.Record` | windGMX500.py:60-71 | `record` fails, writing nothing, exactly when there are fewer than 12 comma fields or `y[9]` has fewer than three `:`-parts. |
| `WindGmx500.RecordVerbatim` | windGMX500.py:69-71 | A written line reads back as the stamp, then fields 1-8 verbatim, the first three GPS parts, `y[11]` and the battery text. Field 10 and extra GPS parts are dropped. That is 15 columns, as many as the header. |
| `WindGmx500.Pass` | windGMX500.py:107-156 | As `Gmx500.Pass`, without a warning file: the battery reading is only shown on the terminal. |
| `WindGmx500.Iterate` | windGMX500.py:92-156 | As `Gmx500.Iterate`: the `q` key copies the last file and ends the run; otherwise the pass raises exactly when `Rotate` does. |
| `GuiGmx500.HeaderColumnCount` | gui_GMX500.py:19-34 | The header reads back as its 16 column names. |
| `GuiGmx500.Record` | gui_GMX500.py:266-286 | The inline parse writes a line exactly when every conversion succeeds: at least 12 fields, the int/float pattern, field 9 in exactly three `:`-parts, and field 11 a float. |
| `GuiGmx500.RecordMatchesHeader` | gui_GMX500.py:282-286 | A written line reads back as the 16 values, as many as the header has columns. |
| `GuiGmx500.Worker.constructor` | gui_GMX500.py:163-190 | The first name is emitted, the files are opened as in `Start`, and the battery buffer holds the two start-up points. |
| `GuiGmx500.Worker.ClearPlots` | gui_GMX500.py:201-205 | With `clearplot` set, both buffers restart empty. Otherwise nothing changes. |
| `GuiGmx500.Worker.CheckHour` | gui_GMX500.py:213-245 | The recorder follows `Rotate`. The name is emitted exactly on a rotation, and when it is emitted its file holds exactly the header. |
| `GuiGmx500.Worker.SampleVoltage` | gui_GMX500.py:254-264 | A battery point is added, and `time_tag` moves to `epoch`, exactly when more than `INTERVAL_V` minutes have passed. The buffer stays the last 72 points. |
| `GuiGmx500.Worker.RecordReading` | gui_GMX500.py:266-298 | A line that passes every conversion is appended and adds its wind entry. A line that fails writes nothing and adds nothing. |
| `GuiGmx500.Worker.PushWind` | gui_GMX500.py:289-291 | Append, then pop the oldest past 600: the buffer stays the last 600 entries, in arrival order. |
| `GuiGmx500.Worker.Pass` | gui_GMX500.py:201-298 | One pass that does not stop: the clear flag, the hourly check, the battery point and one reading. It raises exactly when `Rotate` does. |
| `GuiGmx500.Worker.Iterate` | gui_GMX500.py:197-199 | `stoprun` ends the loop with the recorder unchanged. Otherwise the loop raises exactly when `Rotate` does, and keeps the invariant if it does not. |
| `Buffers.Recent` | wind_gui.py:536-542 | `s[-n:]` when longer than `n`, otherwise all of `s`: the last `min(len, n)` elements. |
| `Buffers.PushCappedRecent` | gui_GMX500.py:289-291 | Appending to the last `cap` arrivals and popping once past `cap` gives the last `cap` arrivals including the new one. |
| `GuiWindow.Sweep` | gui_GMX500.py:737-743 | The deletion loop removes at most as many folders as there are. |
| `GuiWindow.SweepStopsAtFirstRecent` | gui_GMX500.py:737-743 | The loop removes a prefix of the sorted names, each older than the limit. It stops at the first name that is not older, or whose date does not parse. |
| `GuiWindow.DeleteFolders` | gui_GMX500.py:719-745 | An empty listing or an unparsable first name raises. Nothing is deleted unless the oldest folder is past the limit and the user confirms. Then exactly the sweep's prefix is deleted. |
| `GuiWindow.Clock` | gui_GMX500.py:767 | The `%H:%M` label is two digits, a colon and two digits. Its first two digits read back as the hour, and its last two as the minute. |
| `GuiWindow.TickBetweenMeaning` | gui_GMX500.py:773 | The text test means: the hour differs, or the minute goes from at most 29 to at least 30. |
| `GuiWindow.TickIndicesExact` | gui_GMX500.py:766-775 | The ticks are exactly the selected samples, strictly increasing, and sample 0 always has the first tick. A later sample has a tick exactly when its hour differs from the previous sample's, or the previous minute is at most 29 and its own at least 30. |
| `GuiWindow.HalfHourTicks` | gui_GMX500.py:766-775 | `xx` and `xmak` have one entry per selected sample, in order. `xx` holds the first epoch, then `int(t)` of later samples, and `xmak` the clock labels. |
| `GuiWindow.BatteryIndicator.constructor` | gui_GMX500.py:452-453 | The layout creates both labels (lines 388-389 and 452-453): an empty battery label and a green voltage label. The first successful `start` then removes the warning file, shows the last logged voltage and sets the normal state, so the labels are consistent. |
| `GuiWindow.BatteryIndicator.Start` | gui_GMX500.py:893-913 | A successful `start` sets the warning path on the chosen share and removes that file, shows the last logged voltage, and sets `battery_state = 1`. The battery label and the voltage style stay as they were, so after a dead battery they stay red until a later low reading. |
| `GuiWindow.BatteryIndicator.Update` | gui_GMX500.py:798-820 | The labels and style change only when the state flips. Afterwards the state is 0 exactly when the last voltage is below `VOLTAGE_MIN`. A warning without newline is appended when it is below and the share is writable. Consistent labels stay consistent. |
| `WindGui.HeaderColumnCount` | wind_gui.py:10 | The header reads back as its six column names. |
| `WindGui.DayTest` | wind_gui.py:162 | The day-folder test compares a str with an int and is never true. |
| `WindGui.Reading` | wind_gui.py:187-197 | A line yields a reading exactly when it has at least three comma fields and fields 1 and 2 parse as floats. |
| `WindGui.ReadingMatchesHeader` | wind_gui.py:195-197 | A written line reads back as six columns, as many as the header. |
| `WindGui.FirstSuccess` | wind_gui.py:174-179 | Index of the first successful copy attempt: every earlier attempt failed. |
| `WindGui.RetryCopy` | wind_gui.py:174-179 | The busy loop ends exactly when some attempt succeeds, after `first success + 1` attempts. Otherwise it is still spinning after every attempt given. |
| `WindGui.Worker.constructor` | wind_gui.py:134-149 | The first name is emitted and the files are opened as in `Start`. |
| `WindGui.Worker.CheckHour` | wind_gui.py:161-185 | The day folders never change. On an hour change nothing happens until a copy succeeds. Then the new file holds exactly the header, `filename == now`, and the name is emitted. |
| `WindGui.Worker.RecordLine` | wind_gui.py:187-197 | A convertible line is appended to the open file. Any other line raises with nothing written. |
| `WindGui.Worker.Pass` | wind_gui.py:155-197 | The loop blocks exactly on an hour change without a successful copy. It raises exactly on a bad line, and never finishes. |
| `WindGui.Worker.Iterate` | wind_gui.py:151-199 | `finished` is reached exactly when `stoprun` is set. The day folders never change. |
| `WindGui.EveryNth` | wind_gui.py:551 | `rows[::k]` is empty exactly when `rows` is. |
| `WindGui.EveryNthLength` | wind_gui.py:551 | `rows[::k]` has `ceil(len / k)` rows. |
| `WindGui.EveryNthElements` | wind_gui.py:551 | The `j`-th row of `rows[::k]` is row `j * k`. |
| `WindGui.TickRows` | wind_gui.py:536-551 | The ticks are every 240th row of the last 1200 rows (or of all rows), starting with the window's first row. |
| `WindGui.TickLabels` | wind_gui.py:552-555 | One label per tick, in tick order. |

## Left out

- Qt widgets, signals and timers, matplotlib and windrose drawing: user interface and foreign plotting libraries. Only the tick selection, the window slice and the battery-state logic are kept.
- Serial-port and I2C reads: hardware drivers. Lines and voltages are inputs (`Step.line`, `Battery`).
- `NonBlockingConsole` (termios/select): the key is an optional input character.
- Float and int parsing and formatting, `round`, `np.sqrt` and `wind_uv_to_dir`: floating point. They are the parameters `NumberSyntax` and `UvFormulas`. Voltages and epochs are reals.
- `time.strftime`, `time.ctime`, `time.mktime`, `time.localtime`: clock readings are inputs. In `delete_folders`, each name's parsed date is an input.
- `folders.sort()` in `delete_folders`: the listing is taken as already sorted.
- The temp-file CSV writes (`TEMP_FILE_V`, `TEMP_FILE_WIND`) and `np.genfromtxt`/`pd.read_csv`: library I/O. `plot_voltage` is given its last voltage directly, and `plot_wind` its rows.
- The `windGMX500.py` battery check `v < VOLTAGE_MIN`, with `VOLTAGE_MIN = 0`: it only writes to the terminal.
- Failures of `open`, `readline`/`decode`, `shutil.rmtree`, of `os.mkdir` on a missing parent, and of `shutil.copy2` other than by the oracle. During rotation the invariant guarantees that every copy the oracle lets succeed has its source and its destination folder. The quit key's copy fails when its source or the share root is missing.
- `FileSystem.MakeDir` and `FileSystem.EnsureDir` look only at directories: a file and a directory may share a path in the model. In the scripts, `os.mkdir` also raises when the path holds a file, which the quit key's copy can leave at a missing share folder's path; a later start-up that day would then raise.
- `Gmx500.Launch`, `GuiGmx500.Worker.constructor` and `WindGui.Worker.constructor` take the configuration as a parameter. The scripts' own values are `Gmx500.Cfg` and `ScriptConfig(rdrive)`, where the share root read from `par1/rdrive.txt` is an input.
- `GuiGmx500.Worker.ClearPlots`: the flag reset `clearplot = 0` is not modelled, because the flag is an input read once per pass.
- `GuiWindow.BatteryIndicator.Start`: models the successful `start` only. The port detection, the `par1/rdrive.txt` write, the plot redraw, the timers and the buttons are left out, and so are the failed starts: an undetected port changes nothing here, while a missing share folder or an error later in `start` still removes the warning file.
- `WindGui.RetryCopy`: the endless loop is finite in the model. Running out of attempts means the loop is still spinning (`Blocked`).
- The GUI `stop` button's copy of the last file in `gui_GMX500.py`, and `plot_wind` reading `LOCAL_DATA_PATH/filename[:8]/filename.csv`: file I/O around the core.
- The `stoprun` and `clearplot` flags as cross-thread signals: each is read once per pass as an input.
- `setup.py`, `windsonic_setting.py`, `style.py`: one-shot serial command senders and constant style sheets.
