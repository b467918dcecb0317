/**
 * The Python string operations the recorder scripts rely on:
 * `s.split(c)`, `c.join(parts)`, the slices `s[-2:]` and `s[:8]`,
 * and `os.path.join` / `os.path.basename` on POSIX paths.
 */
module Text {

  /** Python's `s.split(c)` for a one-character separator `c`. */
  function Split(s: string, c: char): (r: seq<string>)
    ensures |r| >= 1
    ensures forall i :: 0 <= i < |r| ==> c !in r[i]
    decreases |s|
  {
    if s == [] then [""]
    else
      var rest := Split(s[1..], c);
      if s[0] == c then [""] + rest
      else [[s[0]] + rest[0]] + rest[1..]
  }

  /** Python's `c.join(parts)`. */
  function Joined(parts: seq<string>, c: char): string
  {
    if parts == [] then ""
    else if |parts| == 1 then parts[0]
    else parts[0] + [c] + Joined(parts[1..], c)
  }

  /** No element of `parts` contains the separator `c`. */
  predicate FreeOf(parts: seq<string>, c: char)
  {
    forall i :: 0 <= i < |parts| ==> c !in parts[i]
  }

  lemma JoinedCons(a: string, t: seq<string>, c: char)
    ensures Joined([a] + t, c) == if t == [] then a else a + [c] + Joined(t, c)
  {
    assert ([a] + t)[1..] == t;
  }

  /** A character in front of the first piece ends up in front of the join. */
  lemma JoinedPrepend(x: char, h: string, t: seq<string>, c: char)
    ensures Joined([[x] + h] + t, c) == [x] + Joined([h] + t, c)
  {
    JoinedCons([x] + h, t, c);
    JoinedCons(h, t, c);
  }

  /** Splitting a string and joining the pieces back gives the string again. */
  lemma {:induction false} JoinSplit(s: string, c: char)
    ensures Joined(Split(s, c), c) == s
    decreases |s|
  {
    if s != [] {
      var rest := Split(s[1..], c);
      JoinSplit(s[1..], c);
      if s[0] == c {
        JoinedCons("", rest, c);
      } else {
        assert rest == [rest[0]] + rest[1..];
        JoinedPrepend(s[0], rest[0], rest[1..], c);
      }
      assert s == [s[0]] + s[1..];
    }
  }

  /** A string without the separator splits into itself alone. */
  lemma {:induction false} SplitWithout(s: string, c: char)
    requires c !in s
    ensures Split(s, c) == [s]
    decreases |s|
  {
    if s != [] {
      SplitWithout(s[1..], c);
      assert s == [s[0]] + s[1..];
    }
  }

  /** A separator-free prefix followed by the separator becomes the first piece. */
  lemma {:induction false} SplitAfter(a: string, rest: string, c: char)
    requires c !in a
    ensures Split(a + [c] + rest, c) == [a] + Split(rest, c)
    decreases |a|
  {
    var s := a + [c] + rest;
    if a == [] {
      assert s[1..] == rest;
    } else {
      assert s[1..] == a[1..] + [c] + rest;
      SplitAfter(a[1..], rest, c);
      assert [a[0]] + a[1..] == a;
    }
  }

  /**
   * Joining separator-free pieces and splitting the result recovers the pieces:
   * a CSV line written from fields without commas reads back as those fields.
   */
  lemma {:induction false} SplitJoin(parts: seq<string>, c: char)
    requires parts != [] && FreeOf(parts, c)
    ensures Split(Joined(parts, c), c) == parts
    decreases |parts|
  {
    if |parts| == 1 {
      SplitWithout(parts[0], c);
    } else {
      SplitJoin(parts[1..], c);
      SplitAfter(parts[0], Joined(parts[1..], c), c);
      assert parts == [parts[0]] + parts[1..];
    }
  }

  /** Splitting never introduces a character that the string does not contain. */
  lemma {:induction false} SplitPiecesFreeOf(s: string, sep: char, c: char)
    requires c !in s
    ensures FreeOf(Split(s, sep), c)
    decreases |s|
  {
    if s != [] {
      SplitPiecesFreeOf(s[1..], sep, c);
      var rest := Split(s[1..], sep);
      if s[0] != sep {
        assert c !in rest[0];
        assert c !in [s[0]] + rest[0];
      }
    }
  }

  /** Python's `s[-2:]`: the last two characters, or the whole of a shorter string. */
  function Last2(s: string): string
  {
    if |s| >= 2 then s[|s| - 2..] else s
  }

  /** Python's `s[:8]`: the first eight characters, or the whole of a shorter string. */
  function Take8(s: string): string
  {
    if |s| >= 8 then s[..8] else s
  }

  /** `os.path.join(a, b)` for a relative `b`. */
  function PathJoin(a: string, b: string): string
  {
    a + "/" + b
  }

  /** `os.path.basename(p)`: what follows the last '/'. */
  function BaseName(p: string): (r: string)
    ensures '/' !in r
    decreases |p|
  {
    if p == [] then ""
    else if p[|p| - 1] == '/' then ""
    else BaseName(p[..|p| - 1]) + [p[|p| - 1]]
  }

  /** The base name of a joined path is the last component. */
  lemma {:induction false} BaseNameOfJoin(a: string, b: string)
    requires '/' !in b
    ensures BaseName(PathJoin(a, b)) == b
    decreases |b|
  {
    var p := PathJoin(a, b);
    if b != [] {
      var b' := b[..|b| - 1];
      assert p[..|p| - 1] == PathJoin(a, b');
      BaseNameOfJoin(a, b');
      assert b' + [b[|b| - 1]] == b;
    }
  }

  /** Two joins with the same last component agree only when their directories agree. */
  lemma PathJoinCancel(a: string, a': string, b: string)
    requires PathJoin(a, b) == PathJoin(a', b)
    ensures a == a'
  {
    var p := PathJoin(a, b);
    assert |a| == |a'|;
    assert a == p[..|a|];
    assert a' == p[..|a'|];
  }
}
