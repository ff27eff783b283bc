/** The two `String.prototype` operations the component relies on, with the
    semantics ECMAScript gives them. Strings are sequences of characters. */
module JsString {

  function Min(a: int, b: int): int { if a <= b then a else b }

  function Max(a: int, b: int): int { if a <= b then b else a }

  /** An index argument of `substring` is clamped into `[0, len]`. */
  function ClampIndex(x: int, len: nat): (r: nat)
    ensures r <= len
    ensures 0 <= x <= len ==> r == x
  {
    if x < 0 then 0 else if x > len then len else x
  }

  /** `s.substring(start, end)`: both indices are clamped into the string and,
      when they come out in the wrong order, they are swapped. It never fails. */
  function Substring(s: string, start: int, end: int): (r: string)
    ensures |r| <= |s|
    ensures start <= 0 <= end ==> r == s[..Min(end, |s|)]
  {
    var a, b := ClampIndex(start, |s|), ClampIndex(end, |s|);
    if a <= b then s[a..b] else s[b..a]
  }

  /** `n` copies of the character `c`. */
  function Repeat(c: char, n: nat): (r: string)
    ensures |r| == n
    ensures forall i :: 0 <= i < n ==> r[i] == c
  {
    if n == 0 then [] else [c] + Repeat(c, n - 1)
  }

  /** `s.padStart(targetLength, fill)` for a one-character fill string: the
      fill is prepended until the length reaches `targetLength`; a string that
      is already that long or longer comes back unchanged, never truncated.
      `PadStartIsFillThenString` says what comes before `s`. */
  function PadStart(s: string, targetLength: int, fill: char): (r: string)
    ensures |r| == Max(targetLength, |s|)
    ensures r[|r| - |s|..] == s
  {
    if targetLength <= |s| then s else Repeat(fill, targetLength - |s|) + s
  }

  /** Everything `padStart` puts in front of the string is the fill character. */
  lemma PadStartIsFillThenString(s: string, targetLength: int, fill: char)
    ensures var r := PadStart(s, targetLength, fill);
      forall i :: 0 <= i < |r| - |s| ==> r[i] == fill
  {
  }

  /** Padding a string that already reaches the target length returns it as it is. */
  lemma PadStartNeverTruncates(s: string, targetLength: int, fill: char)
    requires targetLength <= |s|
    ensures PadStart(s, targetLength, fill) == s
  {
  }
}
