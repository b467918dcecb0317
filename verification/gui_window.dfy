/**
 * gui_GMX500.py, `Window`: the helpers with logic in them — the clean-up of
 * old day folders, the half-hour tick marks of the battery plot, and the
 * battery-state indicator.
 */
module GuiWindow {
  import opened Options
  import opened FileSystem
  import opened Text

  const Month: int := 3
  /** `2628000 * MONTH` seconds. */
  const MaxAge: int := 2628000 * Month
  const VoltageMin: real := 0.884

  /** `(epoch_now - epoch1) > 2628000 * MONTH` */
  predicate TooOld(nowEpoch: int, dayEpoch: int)
  {
    nowEpoch - dayEpoch > MaxAge
  }

  /**
   * The sweep of `delete_folders` over the sorted names, given for each name
   * `int(time.mktime(time.strptime(name, "%Y%m%d")))`, or `None` when
   * `strptime` raises: how many leading folders are removed, and whether a
   * name raised on the way.
   */
  function Sweep(days: seq<Option<int>>, nowEpoch: int): (r: (nat, bool))
    ensures r.0 <= |days|
  {
    if days == [] then (0, false)
    else match days[0]
      case None => (0, true)
      case Some(e) =>
        if TooOld(nowEpoch, e) then var t := Sweep(days[1..], nowEpoch); (t.0 + 1, t.1)
        else (0, false)
  }

  /**
   * The sweep removes a prefix: every removed folder is older than the limit,
   * and it stops at the first folder that is not (or whose name raises).
   */
  lemma {:induction false} SweepStopsAtFirstRecent(days: seq<Option<int>>, nowEpoch: int)
    ensures var (n, raised) := Sweep(days, nowEpoch);
            && (forall i :: 0 <= i < n ==> days[i].Some? && TooOld(nowEpoch, days[i].value))
            && (raised ==> n < |days| && days[n].None?)
            && (!raised && n < |days| ==> days[n].Some? && !TooOld(nowEpoch, days[n].value))
  {
    if days != [] && days[0].Some? && TooOld(nowEpoch, days[0].value) {
      SweepStopsAtFirstRecent(days[1..], nowEpoch);
      var t := Sweep(days[1..], nowEpoch);
      forall i | 0 <= i < t.0 + 1
        ensures days[i].Some? && TooOld(nowEpoch, days[i].value)
      {
        if i > 0 {
          assert days[i] == days[1..][i - 1];
        }
      }
    }
  }

  /**
   * `delete_folders` on the sorted listing `folders`: `folders[0]` raises on an
   * empty listing; nothing is removed unless the oldest folder is past the
   * limit and the user confirms; then the leading folders are removed one by
   * one until the first one that is not past the limit.  `deleted` lists the
   * folders handed to `shutil.rmtree`, `raised` an exception leaving the method.
   */
  method DeleteFolders(folders: seq<string>, days: seq<Option<int>>, nowEpoch: int, confirm: bool)
    returns (deleted: seq<string>, raised: bool)
    requires |days| == |folders|
    ensures folders == [] ==> deleted == [] && raised
    ensures folders != [] && days[0].None? ==> deleted == [] && raised
    ensures folders != [] && days[0].Some? && !(TooOld(nowEpoch, days[0].value) && confirm) ==>
              deleted == [] && !raised
    ensures folders != [] && days[0].Some? && TooOld(nowEpoch, days[0].value) && confirm ==>
              deleted == folders[..Sweep(days, nowEpoch).0] && raised == Sweep(days, nowEpoch).1
  {
    if folders == [] || days[0].None? {
      return [], true;
    }
    if !(TooOld(nowEpoch, days[0].value) && confirm) {
      return [], false;
    }
    deleted, raised := [], false;
    for i := 0 to |folders|
      invariant deleted == folders[..i] && !raised
      invariant var t := Sweep(days[i..], nowEpoch); Sweep(days, nowEpoch) == (i + t.0, t.1)
    {
      assert days[i..][1..] == days[i + 1..];
      match days[i]
      case None =>
        return deleted, true;
      case Some(e) =>
        if !TooOld(nowEpoch, e) {
          return;
        }
        deleted := deleted + [folders[i]];
    }
    assert days[|folders|..] == [];
  }

  /** One point of the battery plot: its epoch time and local clock time. */
  datatype Sample = Sample(epoch: real, hour: nat, minute: nat)

  predicate WellFormed(s: Sample)
  {
    s.hour < 24 && s.minute < 60
  }

  predicate AllWellFormed(ss: seq<Sample>)
  {
    forall i :: 0 <= i < |ss| ==> WellFormed(ss[i])
  }

  function Digits2(n: nat): string
    requires n < 100
  {
    [('0' as int + n / 10) as char, ('0' as int + n % 10) as char]
  }

  /** `time.strftime('%H:%M', time.localtime(t))`: two digits each, read back as the hour and the minute. */
  function Clock(s: Sample): (r: string)
    requires WellFormed(s)
    ensures |r| == 5 && r[2] == ':'
    ensures forall k :: 0 <= k < 5 && k != 2 ==> '0' <= r[k] <= '9'
    ensures DigitsValue(r[..2]) == s.hour && DigitsValue(r[3..]) == s.minute
  {
    Digits2Value(s.hour);
    Digits2Value(s.minute);
    Digits2(s.hour) + ":" + Digits2(s.minute)
  }

  /** `int(d)` on a two-digit string. */
  function DigitsValue(d: string): int
    requires |d| == 2
  {
    (d[0] as int - '0' as int) * 10 + (d[1] as int - '0' as int)
  }

  /** The test of `plot_v`: `clock0[:2] != clock[:2] or (int(clock0[-2:]) <= 29 and int(clock[-2:]) >= 30)`. */
  predicate TickBetween(prev: Sample, cur: Sample)
    requires WellFormed(prev) && WellFormed(cur)
  {
    var c0, c := Clock(prev), Clock(cur);
    c0[..2] != c[..2] || (DigitsValue(c0[3..]) <= 29 && DigitsValue(c[3..]) >= 30)
  }

  lemma Digits2Value(n: nat)
    requires n < 100
    ensures DigitsValue(Digits2(n)) == n
  {
  }

  lemma Digits2Injective(a: nat, b: nat)
    requires a < 100 && b < 100 && Digits2(a) == Digits2(b)
    ensures a == b
  {
    Digits2Value(a);
    Digits2Value(b);
  }

  /** On the clock text the test means: a new hour, or a crossing of the half hour within one. */
  lemma TickBetweenMeaning(prev: Sample, cur: Sample)
    requires WellFormed(prev) && WellFormed(cur)
    ensures TickBetween(prev, cur) <==> prev.hour != cur.hour || (prev.minute <= 29 && cur.minute >= 30)
  {
    var c0, c := Clock(prev), Clock(cur);
    assert c0[..2] == Digits2(prev.hour) && c[..2] == Digits2(cur.hour);
    assert c0[3..] == Digits2(prev.minute) && c[3..] == Digits2(cur.minute);
    Digits2Value(prev.minute);
    Digits2Value(cur.minute);
    if c0[..2] == c[..2] {
      Digits2Injective(prev.hour, cur.hour);
    }
  }

  /** Sample `i` gets a tick: the first one always, a later one when `TickBetween` holds. */
  predicate Selected(ss: seq<Sample>, i: nat)
    requires i < |ss| && AllWellFormed(ss)
  {
    i == 0 || TickBetween(ss[i - 1], ss[i])
  }

  /** `int(t)`: truncation toward zero. */
  function Trunc(x: real): int
  {
    if x >= 0.0 then x.Floor else -((-x).Floor)
  }

  /** The tick position of sample `i`: the first keeps its epoch, later ones are `int(t)`. */
  function Position(ss: seq<Sample>, i: nat): real
    requires i < |ss|
  {
    if i == 0 then ss[0].epoch else Trunc(ss[i].epoch) as real
  }

  /** Which samples get a tick. */
  function Marks(ss: seq<Sample>): (m: seq<bool>)
    requires AllWellFormed(ss)
    ensures |m| == |ss| && forall i :: 0 <= i < |ss| ==> (m[i] <==> Selected(ss, i))
  {
    seq(|ss|, i requires 0 <= i < |ss| => Selected(ss, i))
  }

  /** The positions below `n` that hold `true`, in increasing order. */
  function Trues(m: seq<bool>, n: nat): (r: seq<nat>)
    requires n <= |m|
    ensures forall k :: 0 <= k < |r| ==> r[k] < n
  {
    if n == 0 then []
    else Trues(m, n - 1) + (if m[n - 1] then [n - 1] else [])
  }

  lemma {:induction false} TruesMembers(m: seq<bool>, n: nat)
    requires n <= |m|
    ensures forall i :: 0 <= i < n ==> (i in Trues(m, n) <==> m[i])
    decreases n
  {
    if n > 0 {
      TruesMembers(m, n - 1);
      var t := Trues(m, n - 1);
      assert n - 1 !in t;
    }
  }

  lemma {:induction false} TruesIncreasing(m: seq<bool>, n: nat)
    requires n <= |m|
    ensures forall j, k :: 0 <= j < k < |Trues(m, n)| ==> Trues(m, n)[j] < Trues(m, n)[k]
    decreases n
  {
    if n > 0 {
      TruesIncreasing(m, n - 1);
      var t, r := Trues(m, n - 1), Trues(m, n);
      assert r == t + (if m[n - 1] then [n - 1] else []);
      forall j, k | 0 <= j < k < |r|
        ensures r[j] < r[k]
      {
        assert r[j] == t[j];
        if k < |t| {
          assert r[k] == t[k] && t[j] < t[k];
        } else {
          assert r[k] == n - 1 && t[j] < n - 1;
        }
      }
    }
  }

  lemma {:induction false} TruesFirst(m: seq<bool>, n: nat)
    requires 0 < n <= |m| && m[0]
    ensures var r := Trues(m, n); |r| > 0 && r[0] == 0
    decreases n
  {
    if n > 1 {
      TruesFirst(m, n - 1);
    }
  }

  /** The indices below `n` that get a tick, in increasing order. */
  function TickIndices(ss: seq<Sample>, n: nat): (r: seq<nat>)
    requires n <= |ss| && AllWellFormed(ss)
  {
    Trues(Marks(ss), n)
  }

  /**
   * The ticks are exactly the selected samples, strictly increasing, and the
   * first sample always has one.  On the samples' clock values, a later
   * sample is selected when its hour differs from the previous sample's, or
   * when the two straddle the half hour.
   */
  lemma TickIndicesExact(ss: seq<Sample>, n: nat)
    requires n <= |ss| && AllWellFormed(ss)
    ensures forall i :: 0 <= i < n ==> (i in TickIndices(ss, n) <==> Selected(ss, i))
    ensures forall i :: 0 < i < n ==>
              (i in TickIndices(ss, n) <==>
                 ss[i - 1].hour != ss[i].hour || (ss[i - 1].minute <= 29 && ss[i].minute >= 30))
    ensures forall j, k :: 0 <= j < k < |TickIndices(ss, n)| ==> TickIndices(ss, n)[j] < TickIndices(ss, n)[k]
    ensures n > 0 ==> |TickIndices(ss, n)| > 0 && TickIndices(ss, n)[0] == 0
  {
    var m := Marks(ss);
    TruesMembers(m, n);
    TruesIncreasing(m, n);
    if n > 0 {
      TruesFirst(m, n);
    }
    forall i | 0 < i < n
      ensures Selected(ss, i) <==> ss[i - 1].hour != ss[i].hour || (ss[i - 1].minute <= 29 && ss[i].minute >= 30)
    {
      TickBetweenMeaning(ss[i - 1], ss[i]);
    }
  }

  /**
   * `plot_v`'s tick loop: `xx` and `xmak` start with sample 0, and each later
   * selected sample appends its position and its clock label.
   */
  method HalfHourTicks(ss: seq<Sample>) returns (xx: seq<real>, xmak: seq<string>)
    requires |ss| > 0 && AllWellFormed(ss)
    ensures var idx := TickIndices(ss, |ss|);
            && |xx| == |idx| && |xmak| == |idx|
            && forall k :: 0 <= k < |idx| ==> xx[k] == Position(ss, idx[k]) && xmak[k] == Clock(ss[idx[k]])
  {
    ghost var m := Marks(ss);
    xx, xmak := [ss[0].epoch], [Clock(ss[0])];
    assert m[0] && Trues(m, 1) == [0];
    for i := 1 to |ss|
      invariant var idx := Trues(m, i);
                && |xx| == |idx| && |xmak| == |idx|
                && forall k :: 0 <= k < |idx| ==> xx[k] == Position(ss, idx[k]) && xmak[k] == Clock(ss[idx[k]])
    {
      assert Trues(m, i + 1) == Trues(m, i) + (if m[i] then [i] else []);
      if TickBetween(ss[i - 1], ss[i]) {
        xx := xx + [Trunc(ss[i].epoch) as real];
        xmak := xmak + [Clock(ss[i])];
      }
    }
  }

  /** The style sheet of the voltage label. */
  datatype Style = Green | Red

  /** The battery part of `Window`: `battery_state`, the two labels, and the warning file. */
  class BatteryIndicator {
    var warningMsg: string      // path of battery_warning.txt on the share
    var batteryState: int       // 1: normal, 0: dead
    var batteryLabel: string    // text of batteryLabel
    var voltageText: string     // text of voltageLabel
    var voltageStyle: Style     // style sheet of voltageLabel
    var fs: Fs

    /** The labels show what `battery_state` says. */
    predicate Consistent()
      reads this
    {
      || (batteryState == 1 && batteryLabel == "" && voltageStyle == Green)
      || (batteryState == 0 && batteryLabel == "Battery is dead!" && voltageStyle == Red)
    }

    /**
     * The layout creates both labels empty, the voltage label green; the
     * first successful `start` then runs as `Start` does.
     */
    constructor (rdriveFolder: string, v1Text: string, fs0: Fs)
      ensures warningMsg == PathJoin(rdriveFolder, "battery_warning.txt")
      ensures fs == RemoveFile(fs0, warningMsg) && warningMsg !in fs.files
      ensures batteryState == 1 && batteryLabel == "" && voltageText == v1Text && voltageStyle == Green
      ensures Consistent()
    {
      batteryLabel, voltageText, voltageStyle := "", "", Green;
      warningMsg, batteryState, fs := "", 1, fs0;
      new;
      Start(rdriveFolder, v1Text);
    }

    /**
     * A successful `start`: the warning file on the chosen share is removed,
     * the voltage label shows the last logged voltage and `battery_state = 1`.
     * The battery label and the style are left as they are, so a start after
     * a dead battery keeps showing "Battery is dead!" until the next
     * `plot_voltage` finds a low voltage again.
     */
    method Start(rdriveFolder: string, v1Text: string)
      modifies this
      ensures warningMsg == PathJoin(rdriveFolder, "battery_warning.txt")
      ensures fs == RemoveFile(old(fs), warningMsg) && warningMsg !in fs.files
      ensures batteryState == 1 && voltageText == v1Text
      ensures batteryLabel == old(batteryLabel) && voltageStyle == old(voltageStyle)
      ensures old(batteryState) == 1 && old(Consistent()) ==> Consistent()
    {
      warningMsg := PathJoin(rdriveFolder, "battery_warning.txt");
      fs := RemoveFile(fs, warningMsg);
      voltageText := v1Text;
      batteryState := 1;
    }

    /**
     * `plot_voltage` with last voltage `v1` (and its text): the voltage label
     * shows it; below `VOLTAGE_MIN` a warning is appended when the share is
     * writable; the labels and the style change only when the state flips, and
     * afterwards the state is 0 exactly when `v1` is below the limit.
     */
    method Update(v1: real, v1Text: string, ctime: string, writable: bool)
      modifies this
      ensures voltageText == v1Text
      ensures batteryState == 0 <==> v1 < VoltageMin
      ensures batteryState == 0 || batteryState == 1
      ensures batteryState == old(batteryState) ==>
                batteryLabel == old(batteryLabel) && voltageStyle == old(voltageStyle)
      ensures batteryState != old(batteryState) ==>
                batteryLabel == (if batteryState == 0 then "Battery is dead!" else "")
                && voltageStyle == (if batteryState == 0 then Red else Green)
      ensures fs == if v1 < VoltageMin && writable
                    then Append(old(fs), warningMsg, "! Warning, battery is dead: " + ctime)
                    else old(fs)
      ensures old(Consistent()) ==> Consistent()
    {
      voltageText := v1Text;
      if v1 < VoltageMin {
        var b := 0;
        if writable {
          fs := Append(fs, warningMsg, "! Warning, battery is dead: " + ctime);
        }
        if b != batteryState {
          batteryLabel := "Battery is dead!";
          batteryState := 0;
          voltageStyle := Red;
        }
      } else {
        var b := 1;
        if b != batteryState {
          batteryLabel := "";
          batteryState := 1;
          voltageStyle := Green;
        }
      }
    }
  }
}
