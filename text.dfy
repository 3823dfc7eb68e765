/** String operations shared by both halves of the system. */
module Text {

  function Min(a: int, b: int): int
  {
    if a <= b then a else b
  }

  /** An ASCII decimal digit: `\d` in a JavaScript pattern, a digit of `%Y` in Python. */
  predicate IsDigit(c: char)
  {
    '0' <= c <= '9'
  }

  /** Python's slice `s[:n]`: the first `n` characters, or all of `s` when it is shorter. */
  function Prefix(s: string, n: nat): (r: string)
    ensures |r| == Min(|s|, n)
    ensures r == s[..|r|]
  {
    if |s| <= n then s else s[..n]
  }

  /** `t` occurs in `s` starting at position `i`. */
  predicate OccursAt(s: string, t: string, i: nat)
  {
    i + |t| <= |s| && s[i..i + |t|] == t
  }

  /** `t in s` in Python, `s.includes(t)` in JavaScript: `t` occurs somewhere in `s`. */
  predicate Contains(s: string, t: string)
  {
    exists i: nat | i <= |s| :: OccursAt(s, t, i)
  }

  /** A string contains every string that occurs at a known position within it. */
  lemma ContainsAt(s: string, t: string, i: nat)
    requires OccursAt(s, t, i)
    ensures Contains(s, t)
  {
  }

  /** An occurrence stays one when text is added in front. */
  lemma ContainsPrepend(u: string, s: string, t: string)
    requires Contains(s, t)
    ensures Contains(u + s, t)
  {
    var i: nat :| i <= |s| && OccursAt(s, t, i);
    assert (u + s)[|u| + i..|u| + i + |t|] == s[i..i + |t|];
    ContainsAt(u + s, t, |u| + i);
  }

  /** The concatenation of a sequence of lines. */
  function Concat(lines: seq<string>): string
  {
    if lines == [] then "" else lines[0] + Concat(lines[1..])
  }

  /** The concatenation contains each of its lines. */
  lemma {:induction false} ConcatContainsLine(lines: seq<string>, k: nat)
    requires k < |lines|
    ensures Contains(Concat(lines), lines[k])
  {
    if k == 0 {
      assert Concat(lines)[0..|lines[0]|] == lines[0];
      ContainsAt(Concat(lines), lines[0], 0);
    } else {
      ConcatContainsLine(lines[1..], k - 1);
      ContainsPrepend(lines[0], Concat(lines[1..]), lines[k]);
    }
  }

  /** The concatenation contains each pair of consecutive lines, joined. */
  lemma {:induction false} ConcatContainsAdjacentLines(lines: seq<string>, k: nat)
    requires k + 1 < |lines|
    ensures Contains(Concat(lines), lines[k] + lines[k + 1])
  {
    if k == 0 {
      var t := lines[0] + lines[1];
      assert Concat(lines) == t + Concat(lines[2..]) by {
        assert Concat(lines[1..]) == lines[1] + Concat(lines[2..]);
      }
      assert Concat(lines)[0..|t|] == t;
      ContainsAt(Concat(lines), t, 0);
    } else {
      ConcatContainsAdjacentLines(lines[1..], k - 1);
      ContainsPrepend(lines[0], Concat(lines[1..]), lines[k] + lines[k + 1]);
    }
  }
}
