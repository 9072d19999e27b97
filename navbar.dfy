/**
 * The address and balance display helpers of the navigation bar, over
 * JavaScript's `String.prototype.slice` (negative indices count from the
 * end, every index is clamped to the string) and `toUpperCase`.
 */
module Navbar {

  function Min(a: int, b: int): int { if a <= b then a else b }
  function Max(a: int, b: int): int { if a <= b then b else a }

  /** How `slice` turns an argument into a position of a string of length `len`. */
  function SliceIndex(i: int, len: nat): (k: nat)
    ensures k <= len
    ensures 0 <= i <= len ==> k == i
    ensures i > len ==> k == len
    ensures i < 0 && len + i >= 0 ==> k == len + i
    ensures len + i < 0 ==> k == 0
  {
    if i < 0 then Max(len + i, 0) else Min(i, len)
  }

  /** `s.slice(start, end)`: empty when the clamped end does not lie after the clamped start. */
  function Slice(s: string, start: int, end: int): (r: string)
    ensures |r| == Max(0, SliceIndex(end, |s|) - SliceIndex(start, |s|))
    ensures forall i :: 0 <= i < |r| ==> r[i] == s[SliceIndex(start, |s|) + i]
  {
    var b, e := SliceIndex(start, |s|), SliceIndex(end, |s|);
    if b < e then s[b..e] else ""
  }

  /** `s.slice(start)`: from `start` to the end. */
  function SliceFrom(s: string, start: int): (r: string)
    ensures r == s[SliceIndex(start, |s|)..]
  {
    Slice(s, start, |s|)
  }

  /** `toUpperCase` on one character; only the ASCII letters are mapped. */
  function UpperChar(c: char): char {
    if 'a' <= c <= 'z' then (c as int - 32) as char else c
  }

  function ToUpperCase(s: string): (r: string)
    ensures |r| == |s|
    ensures forall i :: 0 <= i < |s| ==> r[i] == UpperChar(s[i])
    decreases |s|
  {
    if s == [] then [] else [UpperChar(s[0])] + ToUpperCase(s[1..])
  }

  /** Upper-casing twice is upper-casing once. */
  lemma ToUpperCaseIdempotent(s: string)
    ensures ToUpperCase(ToUpperCase(s)) == ToUpperCase(s)
  {
  }

  /** `truncateAddress`: the first six characters, "...", and the last four. */
  function TruncateAddress(address: string): (r: string)
    ensures address == "" ==> r == ""
    ensures address != "" ==> r == address[..Min(6, |address|)] + "..." + address[Max(0, |address| - 4)..]
    ensures |address| >= 10 ==> r == address[..6] + "..." + address[|address| - 4..] && |r| == 13
    ensures 0 < |address| <= 4 ==> r == address + "..." + address
  {
    if address == "" then "" else Slice(address, 0, 6) + "..." + SliceFrom(address, -4)
  }

  /** `getAddressLetters`: the upper-cased characters at indices 2 and 3. */
  function GetAddressLetters(address: string): (r: string)
    ensures |r| <= 2
    ensures |address| <= 2 ==> r == ""
    ensures r == ToUpperCase(address[Min(2, |address|)..Min(4, |address|)])
    ensures |address| >= 4 ==> r == [UpperChar(address[2]), UpperChar(address[3])]
  {
    if address == "" then "" else ToUpperCase(Slice(address, 2, 4))
  }

  /** `walletBalance.slice(0, 10)`: at most ten leading characters of the balance text. */
  function DisplayBalance(balance: string): (r: string)
    ensures |r| <= 10
    ensures r == balance[..Min(10, |balance|)]
  {
    Slice(balance, 0, 10)
  }
}
