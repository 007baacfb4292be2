/** The display helpers of lib/utils.ts: shortening an address to its two
    ends and trimming a long name. */
module Utils {
  import opened JsString

  /** `shortenAddress(address, chars = 6)`: the first `chars` characters,
      an ellipsis, and the last `chars` characters, each end taken with
      `substring` and therefore clamped to the address. */
  function ShortenAddress(address: string, chars: int := 6): (r: string)
    ensures 0 <= chars <= |address| ==>
              r == address[..chars] + "..." + address[|address| - chars..] && |r| == 2 * chars + 3
    ensures |address| < chars ==> r == address + "..." + address
    ensures chars <= 0 ==> r == "..."
  {
    Substring(address, 0, chars) + "..." + SubstringFrom(address, |address| - chars)
  }

  /** Whatever the count, the result is a prefix of the address, then
      `"..."`, then a suffix of the address. */
  lemma ShortenAddressFrame(address: string, chars: int)
    ensures exists p, q :: 0 <= p <= |address| && 0 <= q <= |address| &&
              ShortenAddress(address, chars) == address[..p] + "..." + address[q..]
  {
    var p := Clamp(chars, |address|);
    var q := Clamp(|address| - chars, |address|);
    assert ShortenAddress(address, chars) == address[..p] + "..." + address[q..];
  }

  /** Without a count, six characters are kept at each end. */
  lemma ShortenAddressDefault(address: string)
    requires |address| >= 6
    ensures ShortenAddress(address) == address[..6] + "..." + address[|address| - 6..]
    ensures |ShortenAddress(address)| == 15
  {
  }

  /** `trimString(str, length = 25)`: the string itself when it is not
      longer than `length`, otherwise its first `length` characters (taken
      with `slice`, so a negative `length` counts back from the end) and an
      ellipsis. */
  function TrimString(str: string, length: int := 25): (r: string)
    ensures |str| <= length ==> r == str
    ensures 0 <= length < |str| ==> r == str[..length] + "..." && |r| == length + 3
    ensures length < 0 ==>
              r == str[..if |str| + length < 0 then 0 else |str| + length] + "..."
  {
    if |str| > length then Slice(str, 0, length) + "..." else str
  }

  /** For a non-negative length, trimming a trimmed string changes nothing. */
  lemma TrimStringIdempotent(str: string, length: int)
    requires length >= 0
    ensures TrimString(TrimString(str, length), length) == TrimString(str, length)
  {
    if |str| > length {
      assert (str[..length] + "...")[..length] == str[..length];
    }
  }

  /** For a negative length the trim is not idempotent: each application
      drops more characters. */
  lemma TrimStringNegativeNotIdempotent()
    ensures TrimString("abcd", -1) == "abc..."
    ensures TrimString(TrimString("abcd", -1), -1) == "abc....."
  {
  }
}
