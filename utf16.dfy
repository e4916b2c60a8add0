/**
 * UTF-16 code units. JavaScript strings are sequences of 16-bit code units;
 * here a string is a sequence of Unicode characters, so a character outside
 * the basic plane stands for two code units, a high and a low surrogate.
 */
module Utf16 {
  import opened Wrappers

  /**
   * The first UTF-16 code unit of a string, as `charCodeAt(0)` and
   * `charAt(0)` see it: the character itself in the basic plane, its high
   * surrogate outside it, and nothing (`NaN`, or `""`) for the empty string.
   */
  function FirstCodeUnit(s: string): (u: Option<int>)
    ensures |s| == 0 <==> u.None?
    ensures u.Some? ==> 0 <= u.value < 0x10000
    ensures |s| > 0 && (s[0] as int) < 0x10000 ==> u == Some(s[0] as int)
    ensures |s| > 0 && (s[0] as int) >= 0x10000 ==> 0xD800 <= u.value < 0xDC00
  {
    if |s| == 0 then None
    else if (s[0] as int) < 0x10000 then Some(s[0] as int)
    else Some(0xD800 + (s[0] as int - 0x10000) / 0x400)
  }
}
