/** String and sequence helpers shared by the two tools: Python's slicing with
    bounds that clamp, flattening a list of strings, and `str.join`. */
module Strings {

  function Min(a: int, b: int): int {
    if a <= b then a else b
  }

  /** Python's `s[i:j]` for non-negative bounds: both ends are clamped to the
      length of `s`, and an empty string comes back when `j <= i`. */
  function Slice(s: string, i: nat, j: nat): (r: string)
    ensures i <= j <= |s| ==> r == s[i..j]
    ensures |r| == if Min(j, |s|) <= Min(i, |s|) then 0 else Min(j, |s|) - Min(i, |s|)
  {
    var lo := Min(i, |s|);
    var hi := Min(j, |s|);
    if hi <= lo then "" else s[lo..hi]
  }

  /** `''.join(parts)`: the parts written one after another. */
  function Concat(parts: seq<string>): string {
    if parts == [] then "" else parts[0] + Concat(parts[1..])
  }

  /** `sep.join(parts)`. */
  function Join(parts: seq<string>, sep: string): string {
    if |parts| == 0 then ""
    else if |parts| == 1 then parts[0]
    else parts[0] + sep + Join(parts[1..], sep)
  }

  /** The sum of the lengths of `parts`. */
  function TotalLength(parts: seq<string>): nat {
    if parts == [] then 0 else |parts[0]| + TotalLength(parts[1..])
  }

  predicate StartsWith(s: string, prefix: string) {
    |prefix| <= |s| && s[..|prefix|] == prefix
  }

  lemma {:induction false} ConcatLength(parts: seq<string>)
    ensures |Concat(parts)| == TotalLength(parts)
  {
    if parts != [] {
      ConcatLength(parts[1..]);
    }
  }

  /** Joining two non-empty lists is joining the two joins with one more separator. */
  lemma {:induction false} JoinAppend(a: seq<string>, b: seq<string>, sep: string)
    requires a != [] && b != []
    ensures Join(a + b, sep) == Join(a, sep) + sep + Join(b, sep)
  {
    if |a| == 1 {
      assert (a + b)[1..] == b;
    } else {
      assert (a + b)[1..] == a[1..] + b;
      JoinAppend(a[1..], b, sep);
    }
  }

  /** A join holds every character of every part and one separator between
      each two neighbours. */
  lemma {:induction false} JoinLength(parts: seq<string>, sep: string)
    requires parts != []
    ensures |Join(parts, sep)| == TotalLength(parts) + (|parts| - 1) * |sep|
  {
    if |parts| > 1 {
      JoinLength(parts[1..], sep);
    }
  }

  /** Taking off a prefix that two strings share leaves suffixes that are equal
      exactly when the strings are. */
  lemma PrefixCancel(p: string, x: string, y: string)
    ensures p + x == p + y <==> x == y
  {
    if p + x == p + y {
      assert x == (p + x)[|p|..];
      assert y == (p + y)[|p|..];
    }
  }
}
