/** Joining lines with a separator, as the Mac Catalyst strategy does to turn
    the open tool's captured standard-error lines into one error message, and
    the splitting that recovers the lines from such a message. */
module Text {

  /** The summed length of the lines. */
  function TotalLength(lines: seq<string>): nat {
    if |lines| == 0 then 0 else |lines[0]| + TotalLength(lines[1..])
  }

  /** The lines in order with `sep` between each two neighbours: no separator
      before the first line, none after the last, and the empty string for no
      lines at all. */
  function Join(lines: seq<string>, sep: string): (r: string)
    ensures |lines| == 0 ==> r == ""
    ensures |lines| > 0 ==> lines[0] <= r
    ensures |lines| > 0 ==> |r| == TotalLength(lines) + (|lines| - 1) * |sep|
  {
    if |lines| == 0 then ""
    else if |lines| == 1 then lines[0]
    else lines[0] + sep + Join(lines[1..], sep)
  }

  /** The pieces of `s` between the occurrences of `c`; there is always at
      least one piece, and no piece contains `c`. */
  function Split(s: string, c: char): (r: seq<string>)
    ensures |r| > 0
    ensures forall i | 0 <= i < |r| :: c !in r[i]
  {
    if |s| == 0 then [""]
    else
      var rest := Split(s[1..], c);
      if s[0] == c then [""] + rest else [[s[0]] + rest[0]] + rest[1..]
  }

  /** A string without the separator is one piece. */
  lemma {:induction false} SplitWithout(a: string, c: char)
    requires c !in a
    ensures Split(a, c) == [a]
  {
    if |a| > 0 {
      assert c !in a[1..];
      SplitWithout(a[1..], c);
      assert [a[0]] + a[1..] == a;
    }
  }

  /** A separator-free prefix followed by the separator is split off as the
      first piece. */
  lemma {:induction false} SplitAfter(a: string, b: string, c: char)
    requires c !in a
    ensures Split(a + [c] + b, c) == [a] + Split(b, c)
  {
    if |a| == 0 {
      assert a + [c] + b == [c] + b;
      assert ([c] + b)[1..] == b;
    } else {
      assert (a + [c] + b)[1..] == a[1..] + [c] + b;
      assert c !in a[1..];
      SplitAfter(a[1..], b, c);
      assert [a[0]] + a[1..] == a;
    }
  }

  /** Splitting a joined message on a one-character separator gives back the
      lines, provided no line contains that character. */
  lemma {:induction false} SplitJoin(lines: seq<string>, c: char)
    requires |lines| > 0
    requires forall i | 0 <= i < |lines| :: c !in lines[i]
    ensures Split(Join(lines, [c]), c) == lines
  {
    if |lines| == 1 {
      SplitWithout(lines[0], c);
    } else {
      SplitJoin(lines[1..], c);
      SplitAfter(lines[0], Join(lines[1..], [c]), c);
      assert [lines[0]] + lines[1..] == lines;
    }
  }

  /** Prepending a character to the first line prepends it to the message. */
  lemma JoinCons(x: char, first: string, tail: seq<string>, sep: string)
    ensures Join([[x] + first] + tail, sep) == [x] + Join([first] + tail, sep)
  {
    assert ([[x] + first] + tail)[1..] == tail;
    assert ([first] + tail)[1..] == tail;
  }

  /** Joining the pieces of a string with the character it was split on gives
      back the string. */
  lemma {:induction false} JoinSplit(s: string, c: char)
    ensures Join(Split(s, c), [c]) == s
  {
    if |s| > 0 {
      var rest := Split(s[1..], c);
      JoinSplit(s[1..], c);
      if s[0] == c {
        assert ([""] + rest)[1..] == rest;
        assert [s[0]] + s[1..] == s;
      } else {
        JoinCons(s[0], rest[0], rest[1..], [c]);
        assert [rest[0]] + rest[1..] == rest;
        assert [s[0]] + s[1..] == s;
      }
    }
  }
}
