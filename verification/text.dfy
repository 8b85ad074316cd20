/** Python's `str.split(sep)` for a one-character separator, its inverse `sep.join`, and decimal rendering. */
module Text {

  /** `s.split(sep)`: the maximal runs of `s` between separators, in order. */
  function Split(s: string, sep: char): (parts: seq<string>)
    ensures |parts| >= 1
    ensures forall i :: 0 <= i < |parts| ==> sep !in parts[i]
    ensures JoinWith(parts, sep) == s
    ensures |parts| == 1 <==> sep !in s
    decreases |s|
  {
    if |s| == 0 then [""]
    else
      var rest := Split(s[1..], sep);
      if s[0] == sep then
        assert ([""] + rest)[1..] == rest;
        [""] + rest
      else
        var parts := [[s[0]] + rest[0]] + rest[1..];
        assert parts[1..] == rest[1..];
        assert s == [s[0]] + s[1..];
        parts
  }

  /** `sep.join(parts)`. */
  function JoinWith(parts: seq<string>, sep: char): string
    requires |parts| >= 1
    decreases |parts|
  {
    if |parts| == 1 then parts[0] else parts[0] + [sep] + JoinWith(parts[1..], sep)
  }

  /** Splitting after a separator-free head peels that head off as the first part. */
  lemma {:induction false} SplitAfterHead(x: string, sep: char, y: string)
    requires sep !in x
    ensures Split(x + [sep] + y, sep) == [x] + Split(y, sep)
    decreases |x|
  {
    if |x| == 0 {
      assert x + [sep] + y == [sep] + y;
      assert ([sep] + y)[1..] == y;
    } else {
      var s := x + [sep] + y;
      assert s[1..] == x[1..] + [sep] + y;
      SplitAfterHead(x[1..], sep, y);
      assert [x[0]] + x[1..] == x;
    }
  }

  /** `sep.join` followed by `split(sep)` gives the parts back when no part holds the separator. */
  lemma {:induction false} SplitJoin(parts: seq<string>, sep: char)
    requires |parts| >= 1
    requires forall i :: 0 <= i < |parts| ==> sep !in parts[i]
    ensures Split(JoinWith(parts, sep), sep) == parts
    decreases |parts|
  {
    if |parts| == 1 {
      var s := parts[0];
      assert |Split(s, sep)| == 1;
      assert JoinWith(Split(s, sep), sep) == Split(s, sep)[0];
    } else {
      SplitJoin(parts[1..], sep);
      SplitAfterHead(parts[0], sep, JoinWith(parts[1..], sep));
      assert [parts[0]] + parts[1..] == parts;
    }
  }

  /** The join of two or more parts ends with the separator and the last part. */
  lemma {:induction false} JoinWithLast(parts: seq<string>, sep: char)
    requires |parts| >= 2
    ensures JoinWith(parts, sep) == JoinWith(parts[..|parts| - 1], sep) + [sep] + parts[|parts| - 1]
    decreases |parts|
  {
    if |parts| == 2 {
      assert parts[..1] == [parts[0]];
    } else {
      JoinWithLast(parts[1..], sep);
      assert parts[1..][..|parts| - 2] == parts[..|parts| - 1][1..];
    }
  }

  /** The join of two or more parts starts with the first part, the separator and the second part. */
  lemma JoinWithHead(parts: seq<string>, sep: char)
    requires |parts| >= 2
    ensures JoinWith(parts, sep) == parts[0] + [sep] + parts[1] + JoinTail(parts, sep)
  {
    assert parts[1..][0] == parts[1];
    if |parts| > 2 {
      assert parts[1..][1..] == parts[2..];
    }
  }

  /** What follows the second part in `JoinWith(parts, sep)`: empty, or a separator and the rest. */
  function JoinTail(parts: seq<string>, sep: char): (r: string)
    requires |parts| >= 2
    ensures r == [] || r[0] == sep
  {
    if |parts| == 2 then [] else [sep] + JoinWith(parts[2..], sep)
  }

  /** The text after the last separator of `s` (all of `s` when it has none): `s.split(sep)[-1]`. */
  function LastSegment(s: string, sep: char): string {
    var parts := Split(s, sep);
    parts[|parts| - 1]
  }

  /** The last segment holds no separator, and what precedes it is empty or ends with the separator. */
  lemma LastSegmentIsSuffix(s: string, sep: char)
    ensures sep !in LastSegment(s, sep)
    ensures sep !in s ==> LastSegment(s, sep) == s
    ensures sep in s ==> exists p :: s == p + [sep] + LastSegment(s, sep)
  {
    var parts := Split(s, sep);
    if |parts| >= 2 {
      JoinWithLast(parts, sep);
      var p := JoinWith(parts[..|parts| - 1], sep);
      assert s == p + [sep] + LastSegment(s, sep);
    }
  }

  function DigitChar(d: nat): char
    requires d < 10
  {
    "0123456789"[d]
  }

  /** `str(n)` for a natural number. */
  function NatStr(n: nat): (r: string)
    ensures |r| >= 1
    ensures forall i :: 0 <= i < |r| ==> '0' <= r[i] <= '9'
    decreases n
  {
    if n < 10 then [DigitChar(n)] else NatStr(n / 10) + [DigitChar(n % 10)]
  }
}
