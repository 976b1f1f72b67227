/**
 * The pieces of Python's string formatting that the WCS header builder uses:
 * `"%-5s"` and `"%3s"` (left and right justification in a field of blanks),
 * `"%1d"` for a one-digit axis number, and `str.replace` with one-character
 * arguments.
 */
module PyFormat {

  /** A string of n blanks. */
  function Spaces(n: nat): (r: string)
    ensures |r| == n
    ensures forall i :: 0 <= i < n ==> r[i] == ' '
  {
    seq(n, _ => ' ')
  }

  /** `"%-<w>s" % s`: s, padded with blanks on the right up to width w; a longer s is never cut. */
  function LeftJustify(s: string, w: nat): (r: string)
    ensures |r| == if |s| < w then w else |s|
    ensures r[..|s|] == s
    ensures forall i :: |s| <= i < |r| ==> r[i] == ' '
  {
    if |s| < w then s + Spaces(w - |s|) else s
  }

  /** `"%<w>s" % s`: s, padded with blanks on the left up to width w; a longer s is never cut. */
  function RightJustify(s: string, w: nat): (r: string)
    ensures |r| == if |s| < w then w else |s|
    ensures r[|r| - |s|..] == s
    ensures forall i :: 0 <= i < |r| - |s| ==> r[i] == ' '
  {
    if |s| < w then Spaces(w - |s|) + s else s
  }

  /**
   * `s.replace(target, replacement)` for one-character arguments: every
   * occurrence of target becomes replacement, every other character stays,
   * and when the two differ no target is left.
   */
  function ReplaceChar(s: string, target: char, replacement: char): (r: string)
    ensures |r| == |s|
    ensures forall i :: 0 <= i < |s| ==> r[i] == (if s[i] == target then replacement else s[i])
    ensures target != replacement ==> target !in r
  {
    seq(|s|, i requires 0 <= i < |s| => if s[i] == target then replacement else s[i])
  }

  /** Replacing in a concatenation replaces in each part. */
  lemma ReplaceCharConcat(a: string, b: string, target: char, replacement: char)
    ensures ReplaceChar(a + b, target, replacement)
         == ReplaceChar(a, target, replacement) + ReplaceChar(b, target, replacement)
  {
  }

  /** Replacing a second time changes nothing. */
  lemma ReplaceCharIdempotent(s: string, target: char, replacement: char)
    ensures ReplaceChar(ReplaceChar(s, target, replacement), target, replacement)
         == ReplaceChar(s, target, replacement)
  {
  }

  /** `"%1d" % n` for a one-digit n: a single decimal digit whose value is n. */
  function FormatDigit(n: nat): (r: string)
    requires n < 10
    ensures |r| == 1 && '0' <= r[0] <= '9'
    ensures r[0] as int - '0' as int == n
  {
    [('0' as int + n) as char]
  }
}
