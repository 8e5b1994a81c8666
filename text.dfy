/** String helpers used by the model: Ruby's `Array#join`, a splitter that
    inverts it (used to read composed messages back), and `Integer#to_s`. */
module Text {

  /** Ruby's `parts.join(sep)` on an array of strings. */
  function Join(parts: seq<string>, sep: string): string
  {
    if |parts| == 0 then ""
    else if |parts| == 1 then parts[0]
    else parts[0] + sep + Join(parts[1..], sep)
  }

  /** Cuts `s` at every occurrence of `c`, keeping empty pieces, so that
      the result always has at least one piece and no piece holds `c`. */
  function Split(s: string, c: char): (pieces: seq<string>)
    ensures |pieces| >= 1
    ensures forall i :: 0 <= i < |pieces| ==> c !in pieces[i]
  {
    SplitFrom(s, c, "")
  }

  /** `Split` of `s` when `piece` has already been read into the current
      piece: each `c` closes the current piece and starts an empty one. */
  function SplitFrom(s: string, c: char, piece: string): (pieces: seq<string>)
    ensures |pieces| >= 1
    ensures c !in piece ==> forall i :: 0 <= i < |pieces| ==> c !in pieces[i]
  {
    if s == [] then [piece]
    else if s[0] == c then [piece] + SplitFrom(s[1..], c, "")
    else SplitFrom(s[1..], c, piece + [s[0]])
  }

  /** Without the separator, the rest of the string joins the current piece. */
  lemma {:induction false} SplitFromWithout(s: string, c: char, piece: string)
    requires c !in s
    ensures SplitFrom(s, c, piece) == [piece + s]
  {
    if s == [] {
      assert piece + s == piece;
    } else {
      SplitFromWithout(s[1..], c, piece + [s[0]]);
      assert (piece + [s[0]]) + s[1..] == piece + s;
    }
  }

  /** A string without the separator is a single piece. */
  lemma SplitWithout(s: string, c: char)
    requires c !in s
    ensures Split(s, c) == [s]
  {
    SplitFromWithout(s, c, "");
    assert "" + s == s;
  }

  /** A separator ends the current piece; what follows it is split afresh. */
  lemma {:induction false} SplitFromAppend(x: string, y: string, c: char, piece: string)
    ensures SplitFrom(x + [c] + y, c, piece) == SplitFrom(x, c, piece) + SplitFrom(y, c, "")
  {
    var s := x + [c] + y;
    if x == [] {
      assert s[0] == c && s[1..] == y;
    } else {
      assert s[0] == x[0] && s[1..] == x[1..] + [c] + y;
      if x[0] == c {
        SplitFromAppend(x[1..], y, c, "");
      } else {
        SplitFromAppend(x[1..], y, c, piece + [x[0]]);
      }
    }
  }

  /** Splitting distributes over a separator: the pieces of `x`, then those of `y`. */
  lemma SplitAppend(x: string, y: string, c: char)
    ensures Split(x + [c] + y, c) == Split(x, c) + Split(y, c)
  {
    SplitFromAppend(x, y, c, "");
  }

  /** A separator-free prefix is read into the current piece. */
  lemma {:induction false} SplitFromPrefix(pad: string, s: string, c: char, piece: string)
    requires c !in pad
    ensures SplitFrom(pad + s, c, piece) == SplitFrom(s, c, piece + pad)
  {
    if pad == [] {
      assert pad + s == s && piece + pad == piece;
    } else {
      assert (pad + s)[0] == pad[0] && (pad + s)[1..] == pad[1..] + s;
      SplitFromPrefix(pad[1..], s, c, piece + [pad[0]]);
      assert (piece + [pad[0]]) + pad[1..] == piece + pad;
    }
  }

  /** Joining with `[c] + pad` and splitting at `c` gives back the parts,
      the first after the current piece and every later one carrying the
      padding in front. */
  lemma {:induction false} SplitFromJoin(parts: seq<string>, c: char, pad: string, piece: string)
    requires |parts| >= 1
    requires forall i :: 0 <= i < |parts| ==> c !in parts[i]
    requires c !in pad
    ensures var pieces := SplitFrom(Join(parts, [c] + pad), c, piece);
            && |pieces| == |parts|
            && pieces[0] == piece + parts[0]
            && forall i :: 1 <= i < |parts| ==> pieces[i] == pad + parts[i]
  {
    if |parts| == 1 {
      SplitFromWithout(parts[0], c, piece);
    } else {
      var tail := Join(parts[1..], [c] + pad);
      var later := SplitFrom(tail, c, pad);
      assert Join(parts, [c] + pad) == parts[0] + [c] + (pad + tail);
      assert SplitFrom(Join(parts, [c] + pad), c, piece) == [piece + parts[0]] + later by {
        SplitFromAppend(parts[0], pad + tail, c, piece);
        SplitFromWithout(parts[0], c, piece);
        SplitFromPrefix(pad, tail, c, "");
        assert "" + pad == pad;
      }
      SplitFromJoin(parts[1..], c, pad, pad);
    }
  }

  /** Joining with `[c] + pad` and splitting at `c` gives back the parts,
      every part after the first carrying the padding in front. */
  lemma SplitJoin(parts: seq<string>, c: char, pad: string)
    requires |parts| >= 1
    requires forall i :: 0 <= i < |parts| ==> c !in parts[i]
    requires c !in pad
    ensures var pieces := Split(Join(parts, [c] + pad), c);
            && |pieces| == |parts|
            && pieces[0] == parts[0]
            && forall i :: 1 <= i < |parts| ==> pieces[i] == pad + parts[i]
  {
    SplitFromJoin(parts, c, pad, "");
    assert "" + parts[0] == parts[0];
  }

  /** With no padding the round trip is exact. */
  lemma SplitJoinExact(parts: seq<string>, c: char)
    requires |parts| >= 1
    requires forall i :: 0 <= i < |parts| ==> c !in parts[i]
    ensures Split(Join(parts, [c]), c) == parts
  {
    assert [c] + "" == [c];
    SplitJoin(parts, c, "");
    var pieces := Split(Join(parts, [c]), c);
    assert forall i :: 1 <= i < |parts| ==> pieces[i] == "" + parts[i] == parts[i];
  }

  /** The position of the first `c` in `s`. */
  function IndexOf(s: string, c: char): (i: nat)
    requires c in s
    ensures i < |s| && s[i] == c && c !in s[..i]
  {
    if s[0] == c then 0 else 1 + IndexOf(s[1..], c)
  }

  /** The position of the last `c` in `s`. */
  function LastIndexOf(s: string, c: char): (i: nat)
    requires c in s
    ensures i < |s| && s[i] == c && c !in s[i + 1..]
  {
    if s[|s| - 1] == c then |s| - 1
    else
      assert c in s[..|s| - 1] by {
        var k :| 0 <= k < |s| && s[k] == c;
        assert s[..|s| - 1][k] == c;
      }
      LastIndexOf(s[..|s| - 1], c)
  }

  /** In `a + [c] + b` with no `c` in `a`, the first `c` is the one after `a`. */
  lemma FirstIndexAfter(a: string, b: string, c: char)
    requires c !in a
    ensures IndexOf(a + [c] + b, c) == |a|
  {
    var s := a + [c] + b;
    var i := IndexOf(s, c);
    assert s[..|a|] == a;
    assert s[|a|] == c;
  }

  /** In `a + [c] + b` with no `c` in `b`, the last `c` is the one after `a`. */
  lemma LastIndexBefore(a: string, b: string, c: char)
    requires c !in b
    ensures LastIndexOf(a + [c] + b, c) == |a|
  {
    var s := a + [c] + b;
    var i := LastIndexOf(s, c);
    assert s[|a| + 1..] == b;
    assert s[|a|] == c;
  }

  /** The character of the decimal digit `d`. */
  function Digit(d: nat): (c: char)
    requires d < 10
    ensures '0' <= c <= '9' && c as int - '0' as int == d
  {
    ('0' as int + d) as char
  }

  /** The number a string of decimal digits denotes, read left to right. */
  function DecimalValue(s: string): nat
    requires forall i :: 0 <= i < |s| ==> '0' <= s[i] <= '9'
  {
    if s == [] then 0 else 10 * DecimalValue(s[..|s| - 1]) + (s[|s| - 1] as int - '0' as int)
  }

  /** Ruby's `Integer#to_s` on a natural number: digits that read back as `n`. */
  function NatToString(n: nat): (s: string)
    ensures |s| >= 1
    ensures forall i :: 0 <= i < |s| ==> '0' <= s[i] <= '9'
    ensures DecimalValue(s) == n
  {
    if n < 10 then [Digit(n)]
    else
      var s := NatToString(n / 10) + [Digit(n % 10)];
      assert s[..|s| - 1] == NatToString(n / 10);
      s
  }

  /** Ruby's `Integer#to_s`: the decimal digits of the magnitude, after a
      `-` when negative. */
  function IntToString(i: int): (s: string)
    ensures |s| >= 1
    ensures i >= 0 ==> (forall k :: 0 <= k < |s| ==> '0' <= s[k] <= '9') && DecimalValue(s) == i
    ensures i < 0 ==> && |s| >= 2 && s[0] == '-'
                      && (forall k :: 1 <= k < |s| ==> '0' <= s[k] <= '9')
                      && DecimalValue(s[1..]) == -i
  {
    if i < 0 then
      var digits := NatToString(-i);
      assert ("-" + digits)[1..] == digits;
      "-" + digits
    else NatToString(i)
  }

  /** Different integers are written differently. */
  lemma IntToStringInjective(a: int, b: int)
    requires IntToString(a) == IntToString(b)
    ensures a == b
  {
  }
}
