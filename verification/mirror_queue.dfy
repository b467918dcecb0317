/**
 * The `uncopied` list of the recorders: pairs `[local_file_path, r_folder_day]`
 * whose copy to the network share failed, and the retry pass that runs at
 * every hourly rotation.
 *
 * The pass is `for i in range(len(uncopied))`, and every iteration copies
 * `uncopied[0]`: a success pops the head, a failure leaves it where it is, and
 * once the list is empty the remaining iterations raise IndexError, which is
 * caught.  So the pass retries the head, it does not walk the list.
 */
module MirrorQueue {
  import opened Options
  import opened FileSystem

  /** One pending copy: source file and destination directory. */
  datatype Task = Task(src: string, dstDir: string)

  /** Every pending copy could be carried out: its source exists and its destination directory too. */
  ghost predicate Copyable(fs: Fs, q: seq<Task>)
  {
    forall t :: t in q ==> t.src in fs.files && t.dstDir in fs.dirs
  }

  /**
   * The outcome of the `shutil.copy2` call of iteration `i` of a pass, read from
   * the oracle `ok`; an oracle shorter than the pass fails the remaining calls.
   */
  predicate Succeeds(ok: seq<bool>, i: nat)
  {
    i < |ok| && ok[i]
  }

  /** How many iterations `i <= j < n` the oracle lets succeed. */
  function Successes(ok: seq<bool>, i: nat, n: nat): (k: nat)
    ensures k <= if i <= n then n - i else 0
    decreases n - i
  {
    if i >= n then 0
    else (if Succeeds(ok, i) then 1 else 0) + Successes(ok, i + 1, n)
  }

  /** Carry out the copies `ts` in order. */
  function CopyAll(fs: Fs, ts: seq<Task>): (r: Fs)
    requires Copyable(fs, ts)
    ensures r.dirs == fs.dirs && fs.files.Keys <= r.files.Keys
    decreases |ts|
  {
    if ts == [] then fs
    else CopyAll(Copy(fs, ts[0].src, ts[0].dstDir), ts[1..])
  }

  /**
   * Iterations `i .. n-1` of the retry pass, started with list `q` and file system `fs`;
   * the result is the list and the file system after the pass.
   */
  function RetryFrom(q: seq<Task>, fs: Fs, ok: seq<bool>, i: nat, n: nat): (r: (seq<Task>, Fs))
    requires Copyable(fs, q)
    ensures Copyable(r.1, r.0) && r.1.dirs == fs.dirs
    decreases n - i
  {
    if i >= n then (q, fs)
    else if q == [] then RetryFrom(q, fs, ok, i + 1, n)
    else if Succeeds(ok, i) then RetryFrom(q[1..], Copy(fs, q[0].src, q[0].dstDir), ok, i + 1, n)
    else RetryFrom(q, fs, ok, i + 1, n)
  }

  /** The whole pass: `len(uncopied)` iterations, measured when the pass starts. */
  function RetryPass(q: seq<Task>, fs: Fs, ok: seq<bool>): (seq<Task>, Fs)
    requires Copyable(fs, q)
  {
    RetryFrom(q, fs, ok, 0, |q|)
  }

  /** `r` is what remains of `q` after dropping some entries from its front. */
  predicate IsSuffix(r: seq<Task>, q: seq<Task>)
  {
    |r| <= |q| && r == q[|q| - |r|..]
  }

  /**
   * Closed form of the pass: it removes as many entries from the front as there
   * are successful calls (at most all of them), and the removed entries are
   * exactly the ones copied, in list order.
   */
  lemma {:induction false} RetryFromClosedForm(q: seq<Task>, fs: Fs, ok: seq<bool>, i: nat, n: nat)
    requires Copyable(fs, q)
    ensures var k := Min(|q|, Successes(ok, i, n));
            RetryFrom(q, fs, ok, i, n).0 == q[k..] && RetryFrom(q, fs, ok, i, n).1 == CopyAll(fs, q[..k])
    decreases n - i
  {
    if i >= n {
      assert q[..0] == [];
    } else if q == [] {
      RetryFromClosedForm(q, fs, ok, i + 1, n);
    } else if Succeeds(ok, i) {
      var fs' := Copy(fs, q[0].src, q[0].dstDir);
      assert Copyable(fs', q[1..]) by {
        forall t | t in q[1..] ensures t.src in fs'.files && t.dstDir in fs'.dirs {
          assert t in q;
        }
      }
      RetryFromClosedForm(q[1..], fs', ok, i + 1, n);
      var k' := Min(|q| - 1, Successes(ok, i + 1, n));
      assert Min(|q|, Successes(ok, i, n)) == k' + 1;
      assert q[1..][k'..] == q[k' + 1..];
      assert q[..k' + 1][0] == q[0];
      assert q[..k' + 1][1..] == q[1..][..k'];
    } else {
      RetryFromClosedForm(q, fs, ok, i + 1, n);
    }
  }

  /** No iteration of the range succeeds exactly when the count of successes is zero. */
  lemma {:induction false} NoSuccesses(ok: seq<bool>, i: nat, n: nat)
    ensures Successes(ok, i, n) == 0 <==> forall j :: i <= j < n ==> !Succeeds(ok, j)
    decreases n - i
  {
    if i < n {
      NoSuccesses(ok, i + 1, n);
    }
  }

  /** One failing iteration costs the pass one removal. */
  lemma {:induction false} OneFailure(ok: seq<bool>, i: nat, n: nat, j: nat)
    requires i <= j < n && !Succeeds(ok, j)
    ensures Successes(ok, i, n) < n - i
    decreases n - i
  {
    if i < j {
      OneFailure(ok, i + 1, n, j);
    }
  }

  /**
   * After the pass the list is what it was, minus entries taken from its front:
   * order is kept and nothing is added.
   */
  lemma RetryPassIsSuffix(q: seq<Task>, fs: Fs, ok: seq<bool>)
    requires Copyable(fs, q)
    ensures IsSuffix(RetryPass(q, fs, ok).0, q)
    ensures |q| - |RetryPass(q, fs, ok).0| == Min(|q|, Successes(ok, 0, |q|))
  {
    RetryFromClosedForm(q, fs, ok, 0, |q|);
  }

  /** When every call of the pass fails, the list and the files are untouched. */
  lemma RetryPassAllFail(q: seq<Task>, fs: Fs, ok: seq<bool>)
    requires Copyable(fs, q)
    requires forall j :: 0 <= j < |q| ==> !Succeeds(ok, j)
    ensures RetryPass(q, fs, ok) == (q, fs)
  {
    RetryFromClosedForm(q, fs, ok, 0, |q|);
    NoSuccesses(ok, 0, |q|);
    assert q[..0] == [];
  }

  /** When every call of the pass succeeds, the list empties and every entry is copied in order. */
  lemma RetryPassAllSucceed(q: seq<Task>, fs: Fs, ok: seq<bool>)
    requires Copyable(fs, q)
    requires forall j :: 0 <= j < |q| ==> Succeeds(ok, j)
    ensures RetryPass(q, fs, ok) == ([], CopyAll(fs, q))
  {
    RetryFromClosedForm(q, fs, ok, 0, |q|);
    AllSuccesses(ok, 0, |q|);
    assert q[..|q|] == q;
  }

  lemma {:induction false} AllSuccesses(ok: seq<bool>, i: nat, n: nat)
    requires i <= n
    requires forall j :: i <= j < n ==> Succeeds(ok, j)
    ensures Successes(ok, i, n) == n - i
    decreases n - i
  {
    if i < n {
      AllSuccesses(ok, i + 1, n);
    }
  }

  /**
   * Because every call targets the head, a single failure in the pass keeps the
   * last entry of the list from being copied in this pass: a failing head
   * blocks the entries behind it.
   */
  lemma RetryPassFailureBlocksTail(q: seq<Task>, fs: Fs, ok: seq<bool>, j: nat)
    requires Copyable(fs, q)
    requires j < |q| && !Succeeds(ok, j)
    ensures var r := RetryPass(q, fs, ok).0; r != [] && r[|r| - 1] == q[|q| - 1]
  {
    RetryFromClosedForm(q, fs, ok, 0, |q|);
    OneFailure(ok, 0, |q|, j);
  }
}
