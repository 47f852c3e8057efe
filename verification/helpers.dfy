/** `shortenAddress` (src/libs/helpers/index.ts): an address shown as its
    head, "..." and its tail, with JavaScript `slice` semantics. */
module Helpers {
  import opened Outcome
  import opened JsString

  function Min(a: int, b: int): int {
    if a <= b then a else b
  }

  /** `r` is some prefix of `a`, then "...", then some suffix of `a`. */
  predicate IsShortened(a: string, r: string) {
    exists i, j :: 0 <= i <= |a| && 0 <= j <= |a| && r == a[..i] + "..." + a[j..]
  }

  /** `chars` defaults to 4 when it is not passed. */
  function CharsOrDefault(chars: Option<int>): (c: int)
    ensures chars.Some? ==> c == chars.value
    ensures chars.None? ==> c == 4
  {
    if chars.Some? then chars.value else 4
  }

  /** The head is `slice(0, chars + 2)` and the tail `slice(-chars)`. For
      `chars >= 1` these are the first `chars + 2` and the last `chars`
      characters (fewer on a short address); for `chars = 0` the tail is
      `slice(-0)`, which is the whole address. Whatever `chars`, the result
      is a prefix, "..." and a suffix, and short addresses do not fail. */
  function ShortenAddress(address: string, chars: Option<int>): (r: string)
    ensures CharsOrDefault(chars) >= 1 ==>
      r == address[..Min(CharsOrDefault(chars) + 2, |address|)] + "..."
         + address[|address| - Min(CharsOrDefault(chars), |address|)..]
    ensures CharsOrDefault(chars) == 0 ==> r == address[..Min(2, |address|)] + "..." + address
    ensures IsShortened(address, r)
  {
    var c := CharsOrDefault(chars);
    var head := Slice(address, 0, Some(c + 2));
    var tail := Slice(address, -c, None);
    var r := head + "..." + tail;
    ShortenedShape(address, c, r);
    r
  }

  lemma ShortenedShape(address: string, c: int, r: string)
    requires r == Slice(address, 0, Some(c + 2)) + "..." + Slice(address, -c, None)
    ensures c >= 1 ==> r == address[..Min(c + 2, |address|)] + "..." + address[|address| - Min(c, |address|)..]
    ensures c == 0 ==> r == address[..Min(2, |address|)] + "..." + address
    ensures IsShortened(address, r)
  {
    var i := RelativeIndex(c + 2, |address|);
    var j := RelativeIndex(-c, |address|);
    assert Slice(address, 0, Some(c + 2)) == address[..i];
    assert Slice(address, -c, None) == address[j..];
    if c == 0 {
      assert address[0..] == address;
    }
  }

  /** With the default of 4 or any `chars >= 1`, an address of at least
      `chars + 2` characters shortens to exactly `2 * chars + 5` characters,
      which is shorter than the address once it exceeds that length. */
  lemma ShortenedLength(address: string, c: int)
    requires c >= 1 && |address| >= c + 2
    ensures |ShortenAddress(address, Some(c))| == 2 * c + 5
    ensures |address| > 2 * c + 5 ==> |ShortenAddress(address, Some(c))| < |address|
  {
  }

  /** Leaving `chars` out is passing 4. */
  lemma DefaultChars(address: string)
    ensures ShortenAddress(address, None) == ShortenAddress(address, Some(4))
    ensures |address| >= 6 ==> |ShortenAddress(address, None)| == 13
  {
  }

  /** A shortened address keeps the address's first and last characters,
      and the "..." sits right after the head. */
  lemma ShortenedKeepsEnds(address: string, c: int)
    requires c >= 1 && |address| >= c + 2
    ensures ShortenAddress(address, Some(c))[..c + 2] == address[..c + 2]
    ensures ShortenAddress(address, Some(c))[c + 2..c + 5] == "..."
    ensures ShortenAddress(address, Some(c))[c + 5..] == address[|address| - c..]
  {
  }
}
