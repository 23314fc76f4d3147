/** String searching and line splitting used by the rest of the model.
    Strings are sequences of Unicode scalar values (`char`). */
module Strings {

  /** `t` occurs in `s` starting at position `i`. */
  ghost predicate OccursAt(s: string, t: string, i: int) {
    0 <= i && i + |t| <= |s| && s[i..i + |t|] == t
  }

  /** `String.prototype.indexOf`: the first position at which `t` occurs in `s`, or -1. */
  function IndexOf(s: string, t: string): (r: int)
    ensures r == -1 || OccursAt(s, t, r)
    ensures r == -1 <==> forall i :: !OccursAt(s, t, i)
    ensures forall i :: 0 <= i < r ==> !OccursAt(s, t, i)
    decreases |s|
  {
    if |s| < |t| then
      -1
    else if s[..|t|] == t then
      0
    else
      var k := IndexOf(s[1..], t);
      assert forall i :: 0 < i ==> OccursAt(s, t, i) == OccursAt(s[1..], t, i - 1) by {
        forall i | 0 < i {
          OccursAfterFirst(s, t, i);
        }
      }
      assert forall i :: i <= 0 ==> !OccursAt(s, t, i);
      if k < 0 then -1 else k + 1
  }

  lemma OccursAfterFirst(s: string, t: string, i: int)
    requires 0 < i && 0 < |s|
    ensures OccursAt(s, t, i) == OccursAt(s[1..], t, i - 1)
  {
    if i + |t| <= |s| {
      assert s[i..i + |t|] == s[1..][i - 1..i - 1 + |t|];
    }
  }

  /** The source's `s.indexOf(t) > -1`. */
  predicate Contains(s: string, t: string): (found: bool)
    ensures found <==> exists i :: OccursAt(s, t, i)
  {
    IndexOf(s, t) > -1
  }

  /** The position of the first `c` in `s`, or `|s|` when there is none. */
  function Find(s: string, c: char): (i: nat)
    ensures i <= |s|
    ensures i < |s| ==> s[i] == c
    ensures c !in s[..i]
    decreases |s|
  {
    if s == [] || s[0] == c then 0 else 1 + Find(s[1..], c)
  }

  /** Each line followed by a line feed, in order. */
  function JoinLines(lines: seq<string>): string {
    if lines == [] then "" else lines[0] + "\n" + JoinLines(lines[1..])
  }

  /** Splits `s` at every line feed; a last line without a line feed is kept. */
  function SplitLines(s: string): seq<string>
    decreases |s|
  {
    if s == [] then
      []
    else
      var i := Find(s, '\n');
      [s[..i]] + (if i < |s| then SplitLines(s[i + 1..]) else [])
  }

  /** No line contains a line feed of its own. */
  predicate SingleLines(lines: seq<string>) {
    forall k :: 0 <= k < |lines| ==> '\n' !in lines[k]
  }

  lemma {:induction false} JoinLinesAppend(a: seq<string>, b: seq<string>)
    ensures JoinLines(a + b) == JoinLines(a) + JoinLines(b)
    decreases |a|
  {
    if a != [] {
      assert (a + b)[1..] == a[1..] + b;
      JoinLinesAppend(a[1..], b);
    } else {
      assert a + b == b;
    }
  }

  lemma JoinLinesCons(l: string, rest: seq<string>)
    ensures JoinLines([l] + rest) == l + "\n" + JoinLines(rest)
  {
    assert ([l] + rest)[1..] == rest;
  }

  lemma JoinSixLines(a: string, b: string, c: string, d: string, e: string, f: string)
    ensures JoinLines([a, b, c, d, e, f]) ==
      (a + "\n") + (b + "\n") + (c + "\n") + (d + "\n") + (e + "\n") + (f + "\n")
  {
    JoinLinesCons(f, []);
    JoinLinesCons(e, [f]);
    JoinLinesCons(d, [e, f]);
    JoinLinesCons(c, [d, e, f]);
    JoinLinesCons(b, [c, d, e, f]);
    JoinLinesCons(a, [b, c, d, e, f]);
    assert [a] + [b, c, d, e, f] == [a, b, c, d, e, f];
    assert [b] + [c, d, e, f] == [b, c, d, e, f];
    assert [c] + [d, e, f] == [c, d, e, f];
    assert [d] + [e, f] == [d, e, f];
    assert [e] + [f] == [e, f];
    assert [f] + [] == [f];
  }

  /** A line without a line feed of its own, followed by one, is split off first. */
  lemma SplitFirstLine(l: string, rest: string)
    requires '\n' !in l
    ensures SplitLines(l + "\n" + rest) == [l] + SplitLines(rest)
  {
    var s := l + "\n" + rest;
    assert forall j :: 0 <= j < |l| ==> s[j] == l[j];
    assert s[|l|] == '\n';
    var i := Find(s, '\n');
    assert i == |l|;
    assert s[..i] == l;
    assert s[i + 1..] == rest;
  }

  /** Splitting undoes joining, as long as no line holds a line feed of its own. */
  lemma {:induction false} SplitJoinLines(lines: seq<string>)
    requires SingleLines(lines)
    ensures SplitLines(JoinLines(lines)) == lines
    decreases |lines|
  {
    if lines != [] {
      assert '\n' !in lines[0];
      SplitFirstLine(lines[0], JoinLines(lines[1..]));
      SplitJoinLines(lines[1..]);
    }
  }
}
