/**
 * The string helpers of the bot: ASCII case mapping (`toUpperCase` on token
 * symbols, `toLowerCase` on addresses) and the address abbreviator `short`.
 */
module Text {

  predicate IsLowerAscii(ch: char) { 'a' <= ch <= 'z' }

  predicate IsUpperAscii(ch: char) { 'A' <= ch <= 'Z' }

  /** No character of `s` is a lower-case ASCII letter. */
  predicate NoLowerAscii(s: string) {
    forall i :: 0 <= i < |s| ==> !IsLowerAscii(s[i])
  }

  /** No character of `s` is an upper-case ASCII letter. */
  predicate NoUpperAscii(s: string) {
    forall i :: 0 <= i < |s| ==> !IsUpperAscii(s[i])
  }

  function UpperChar(ch: char): char {
    if IsLowerAscii(ch) then (ch as int - 32) as char else ch
  }

  function LowerChar(ch: char): char {
    if IsUpperAscii(ch) then (ch as int + 32) as char else ch
  }

  /** Upper-cases the ASCII letters of `s` and keeps every other character. */
  function ToUpper(s: string): (r: string)
    ensures |r| == |s|
    ensures NoLowerAscii(r)
    ensures forall i :: 0 <= i < |s| && !IsLowerAscii(s[i]) ==> r[i] == s[i]
    ensures forall i :: 0 <= i < |s| && IsLowerAscii(s[i]) ==> IsUpperAscii(r[i]) && LowerChar(r[i]) == s[i]
  {
    seq(|s|, i requires 0 <= i < |s| => UpperChar(s[i]))
  }

  /** Lower-cases the ASCII letters of `s` and keeps every other character. */
  function ToLower(s: string): (r: string)
    ensures |r| == |s|
    ensures NoUpperAscii(r)
    ensures forall i :: 0 <= i < |s| && !IsUpperAscii(s[i]) ==> r[i] == s[i]
    ensures forall i :: 0 <= i < |s| && IsUpperAscii(s[i]) ==> IsLowerAscii(r[i]) && UpperChar(r[i]) == s[i]
  {
    seq(|s|, i requires 0 <= i < |s| => LowerChar(s[i]))
  }

  /** Two strings that differ only in the case of ASCII letters lower-case to the same string. */
  lemma ToLowerIgnoresCase(s: string, t: string)
    requires ToUpper(s) == ToUpper(t)
    ensures ToLower(s) == ToLower(t)
  {
  }

  function Min(a: int, b: int): int { if a <= b then a else b }

  /**
   * `short(addr)`: the first six characters, "...", and the last four; as with
   * `slice`, a string shorter than six (four) characters is taken whole.
   */
  function Short(addr: string): (r: string)
    ensures |r| == Min(6, |addr|) + 3 + Min(4, |addr|)
    ensures |addr| >= 6 ==> r[..6] == addr[..6]
    ensures |addr| < 6 ==> r[..|addr|] == addr
    ensures |addr| >= 4 ==> r[|r| - 4..] == addr[|addr| - 4..]
    ensures |addr| < 4 ==> r[|r| - |addr|..] == addr
    ensures r[Min(6, |addr|)..Min(6, |addr|) + 3] == "..."
  {
    addr[..Min(6, |addr|)] + "..." + addr[|addr| - Min(4, |addr|)..]
  }

  /** For a full 42-character hex address the abbreviation keeps "0x", four digits, and the last four digits. */
  lemma ShortAddress(addr: string)
    requires |addr| == 42 && addr[..2] == "0x"
    ensures |Short(addr)| == 13
    ensures Short(addr)[..2] == "0x"
    ensures Short(addr)[2..6] == addr[2..6]
    ensures Short(addr)[9..] == addr[38..]
  {
  }
}
