/** String operations of the Python runtime that the clients rely on: prefix and
    substring tests, ASCII lower-casing, `rstrip` of one character and
    `str.replace` with a non-empty pattern. */
module Text {

  type byte = x: int | 0 <= x < 256

  /** `s.startswith(p)` */
  predicate StartsWith<T(==)>(s: seq<T>, p: seq<T>) {
    |p| <= |s| && s[..|p|] == p
  }

  /** `p in s` for strings and byte strings: some position of `s` starts with `p`. */
  predicate Contains<T(==)>(s: seq<T>, p: seq<T>)
    decreases |s|
  {
    StartsWith(s, p) || (|s| > 0 && Contains(s[1..], p))
  }

  /** `p` occurs in `s` starting at index `i`. */
  predicate OccursAt<T(==)>(s: seq<T>, p: seq<T>, i: int) {
    0 <= i <= |s| - |p| && s[i..i + |p|] == p
  }

  /** The explicit-index reading of `Contains`. */
  lemma {:induction false} ContainsAt<T>(s: seq<T>, p: seq<T>)
    ensures Contains(s, p) <==> exists i :: OccursAt(s, p, i)
    decreases |s|
  {
    if StartsWith(s, p) {
      assert OccursAt(s, p, 0);
    } else if |s| > 0 {
      ContainsAt(s[1..], p);
      if Contains(s[1..], p) {
        var i :| OccursAt(s[1..], p, i);
        assert s[i + 1..i + 1 + |p|] == s[1..][i..i + |p|];
        assert OccursAt(s, p, i + 1);
      }
      if exists i :: OccursAt(s, p, i) {
        var i :| OccursAt(s, p, i);
        assert i != 0;
        assert s[1..][i - 1..i - 1 + |p|] == s[i..i + |p|];
        assert OccursAt(s[1..], p, i - 1);
      }
    } else {
      assert forall i :: !OccursAt(s, p, i);
    }
  }

  /** Wrapping a string between `a` and `b` keeps every occurrence. */
  lemma ContainsWithin<T>(a: seq<T>, s: seq<T>, b: seq<T>, p: seq<T>)
    requires Contains(s, p)
    ensures Contains(a + s + b, p)
  {
    ContainsAt(s, p);
    var i :| OccursAt(s, p, i);
    assert (a + s + b)[|a| + i..|a| + i + |p|] == s[i..i + |p|];
    assert OccursAt(a + s + b, p, |a| + i);
    ContainsAt(a + s + b, p);
  }

  /** The bytes of an ASCII literal such as `b'AccessDeniedException'`. */
  function Bytes(s: string): (r: seq<byte>)
    ensures |r| == |s|
  {
    seq(|s|, i requires 0 <= i < |s| => (s[i] as int) % 256)
  }

  function LowerChar(c: char): char {
    if 'A' <= c <= 'Z' then (c as int + 32) as char else c
  }

  /** `s.lower()`, restricted to the ASCII letters. */
  function Lower(s: string): (r: string)
    ensures |r| == |s|
    ensures forall i :: 0 <= i < |s| ==> r[i] == LowerChar(s[i])
  {
    seq(|s|, i requires 0 <= i < |s| => LowerChar(s[i]))
  }

  /** `s.rstrip(c)`: drops every trailing `c`. */
  function RStrip(s: string, c: char): (r: string)
    decreases |s|
  {
    if |s| > 0 && s[|s| - 1] == c then RStrip(s[..|s| - 1], c) else s
  }

  /** What `rstrip` leaves no longer ends in `c`, and only copies of `c` were removed. */
  lemma {:induction false} RStripSpec(s: string, c: char)
    ensures StartsWith(s, RStrip(s, c))
    ensures |RStrip(s, c)| == 0 || RStrip(s, c)[|RStrip(s, c)| - 1] != c
    ensures forall i :: |RStrip(s, c)| <= i < |s| ==> s[i] == c
    decreases |s|
  {
    if |s| > 0 && s[|s| - 1] == c {
      RStripSpec(s[..|s| - 1], c);
    }
  }

  /** `s.replace(p, v)` for a non-empty `p`: every occurrence found scanning left to right
      is replaced; the scan resumes after the replaced text. */
  function ReplaceAll(s: string, p: string, v: string): string
    requires |p| > 0
    decreases |s|
  {
    if |s| == 0 then s
    else if StartsWith(s, p) then v + ReplaceAll(s[|p|..], p, v)
    else [s[0]] + ReplaceAll(s[1..], p, v)
  }

  /** A string without the pattern comes back unchanged. */
  lemma {:induction false} ReplaceAbsent(s: string, p: string, v: string)
    requires |p| > 0 && !Contains(s, p)
    ensures ReplaceAll(s, p, v) == s
    decreases |s|
  {
    if |s| > 0 {
      ReplaceAbsent(s[1..], p, v);
      assert [s[0]] + s[1..] == s;
    }
  }

  /** A template whose first occurrence of the pattern is at the end of `a` becomes
      `a`, the value, then the rest of the template processed the same way. */
  lemma {:induction false} ReplaceFirst(a: string, p: string, b: string, v: string)
    requires |p| > 0
    requires forall i :: 0 <= i < |a| ==> !StartsWith((a + p + b)[i..], p)
    ensures ReplaceAll(a + p + b, p, v) == a + v + ReplaceAll(b, p, v)
    decreases |a|
  {
    if |a| == 0 {
      assert a + p + b == p + b;
      assert (p + b)[|p|..] == b;
    } else {
      var s := a + p + b;
      assert !StartsWith(s[0..], p);
      assert s[0..] == s;
      assert s[1..] == a[1..] + p + b;
      forall i | 0 <= i < |a[1..]|
        ensures !StartsWith((a[1..] + p + b)[i..], p)
      {
        assert (a[1..] + p + b)[i..] == s[i + 1..];
      }
      ReplaceFirst(a[1..], p, b, v);
      assert [a[0]] + (a[1..] + v + ReplaceAll(b, p, v)) == a + v + ReplaceAll(b, p, v);
    }
  }

  /** A template holding the pattern exactly once is the text around it with the
      value in its place. */
  lemma ReplaceSingle(a: string, p: string, b: string, v: string)
    requires |p| > 0
    requires forall i :: 0 <= i < |a| ==> !StartsWith((a + p + b)[i..], p)
    requires !Contains(b, p)
    ensures ReplaceAll(a + p + b, p, v) == a + v + b
  {
    ReplaceFirst(a, p, b, v);
    ReplaceAbsent(b, p, v);
  }
}
