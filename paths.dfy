/** Dotted paths: `unnestKeys` joins the keys of a nested definition map with
    '.', and `findLeaf` splits a path on '.' to walk into an object. */
module Paths {

  const Dot: char := '.'

  /** True of a key that can be one segment of a path. */
  predicate Segment(k: string)
  {
    Dot !in k
  }

  /** The number of dots in `s`. */
  function Dots(s: string): nat
  {
    if s == [] then 0 else (if s[0] == Dot then 1 else 0) + Dots(s[1..])
  }

  /** `s.split('.')`: never empty, one more segment than there are dots,
      and no segment holds a dot. */
  function Split(s: string): (r: seq<string>)
    ensures |r| == Dots(s) + 1
    ensures forall i :: 0 <= i < |r| ==> Segment(r[i])
  {
    if s == [] then [""]
    else
      var rest := Split(s[1..]);
      if s[0] == Dot then [""] + rest
      else [[s[0]] + rest[0]] + rest[1..]
  }

  /** `ks.join('.')`. */
  function Join(ks: seq<string>): string
  {
    if |ks| == 0 then ""
    else if |ks| == 1 then ks[0]
    else ks[0] + [Dot] + Join(ks[1..])
  }

  /** Splitting and joining again gives back the path. */
  lemma {:induction false} JoinSplit(s: string)
    ensures Join(Split(s)) == s
  {
    if s != [] {
      var rest := Split(s[1..]);
      JoinSplit(s[1..]);
      if s[0] != Dot && |rest| > 1 {
        assert Join(rest) == rest[0] + [Dot] + Join(rest[1..]);
        assert rest[1..][1..] == rest[2..];
        assert ([[s[0]] + rest[0]] + rest[1..])[1..] == rest[1..];
      }
      assert s == [s[0]] + s[1..];
    }
  }

  /** A key without a dot is a single segment. */
  lemma {:induction false} SplitSegment(s: string)
    requires Segment(s)
    ensures Split(s) == [s]
  {
    if s != [] {
      SplitSegment(s[1..]);
      assert s == [s[0]] + s[1..];
    }
  }

  /** Splitting `s.t` where `s` has no dot yields `s` and then the segments of `t`. */
  lemma {:induction false} SplitDotted(s: string, t: string)
    requires Segment(s)
    ensures Split(s + [Dot] + t) == [s] + Split(t)
  {
    var u := s + [Dot] + t;
    if s == [] {
      assert u[1..] == t;
    } else {
      assert u[1..] == s[1..] + [Dot] + t;
      SplitDotted(s[1..], t);
      assert s == [s[0]] + s[1..];
    }
  }

  /** Joining segments and splitting again gives back the segments: the keys
      that `unnestKeys` joins are the keys that `findLeaf` walks. */
  lemma {:induction false} SplitJoin(ks: seq<string>)
    requires |ks| >= 1
    requires forall i :: 0 <= i < |ks| ==> Segment(ks[i])
    ensures Split(Join(ks)) == ks
  {
    if |ks| == 1 {
      SplitSegment(ks[0]);
    } else {
      SplitJoin(ks[1..]);
      SplitDotted(ks[0], Join(ks[1..]));
      assert ks == [ks[0]] + ks[1..];
    }
  }
}
