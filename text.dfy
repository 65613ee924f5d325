/** String helpers with JavaScript's semantics: the `||` default for strings
    (the empty string is falsy) and `String.prototype.slice`. */
module Text {

  function Min(a: int, b: int): int { if a <= b then a else b }

  /** `a || b` on strings: `a` unless it is the empty string. */
  function Or(a: string, b: string): (r: string)
    ensures a != "" ==> r == a
    ensures a == "" ==> r == b
  {
    if a != "" then a else b
  }

  /** `s.slice(0, n)` for n >= 0: the first n characters, or all of a shorter string. */
  function Head(s: string, n: nat): (r: string)
    ensures |r| == Min(n, |s|) && s == r + s[|r|..]
  {
    s[..Min(n, |s|)]
  }

  /** `s.slice(-n)` for n > 0: the last n characters, or all of a shorter string. */
  function Tail(s: string, n: nat): (r: string)
    ensures |r| == Min(n, |s|) && s == s[..|s| - |r|] + r
  {
    s[|s| - Min(n, |s|)..]
  }

  /** `${address.slice(0, 6)}...${address.slice(-4)}`. */
  function FormatAddress(address: string): (r: string)
    ensures |r| == Min(6, |address|) + 3 + Min(4, |address|)
    ensures r[..Min(6, |address|)] == address[..Min(6, |address|)]
    ensures r[Min(6, |address|)..Min(6, |address|) + 3] == "..."
    ensures r[|r| - Min(4, |address|)..] == address[|address| - Min(4, |address|)..]
  {
    Head(address, 6) + "..." + Tail(address, 4)
  }

  /** An address of at least ten characters is shortened to 13 characters
      that keep its first six and its last four. */
  lemma FormatLongAddress(address: string)
    requires |address| >= 10
    ensures FormatAddress(address) == address[..6] + "..." + address[|address| - 4..]
    ensures |FormatAddress(address)| == 13
  {
  }
}
