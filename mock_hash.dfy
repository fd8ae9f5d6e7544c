/**
 * The simulated blockchain hash: "0x" followed by 64 hexadecimal digits, each chosen by one
 * Math.random() draw. The draws are inputs; only the shape of the hash is promised.
 */
module MockHash {

  const HexChars := "0123456789abcdef"
  const HashDigits := 64

  /** What Math.random() returns: a real in [0, 1). */
  predicate IsRandomDraw(r: real) {
    0.0 <= r < 1.0
  }

  predicate ValidDraws(draws: seq<real>) {
    |draws| == HashDigits && forall i :: 0 <= i < |draws| ==> IsRandomDraw(draws[i])
  }

  /** `Math.floor(r * 16)`. */
  function HexIndex(r: real): (d: nat)
    requires IsRandomDraw(r)
    ensures d < 16
  {
    (r * 16.0).Floor
  }

  /** The digit of one draw: `chars[Math.floor(r * 16)]`, which is also `Math.floor(r * 16).toString(16)`. */
  function HexDigit(r: real): char
    requires IsRandomDraw(r)
  {
    HexChars[HexIndex(r)]
  }

  predicate IsHashShaped(h: string) {
    |h| == 2 + HashDigits && h[..2] == "0x" && forall i :: 2 <= i < |h| ==> h[i] in HexChars
  }

  /** `'0x' + Array.from({ length: 64 }, () => Math.floor(Math.random() * 16).toString(16)).join('')`. */
  function BlockchainHash(draws: seq<real>): (h: string)
    requires ValidDraws(draws)
    ensures IsHashShaped(h)
  {
    "0x" + seq(HashDigits, i requires 0 <= i < HashDigits => HexDigit(draws[i]))
  }

  /** The value of a hexadecimal digit character. */
  function HexValue(c: char): (d: nat)
    requires c in HexChars
    ensures d < 16 && HexChars[d] == c
  {
    if '0' <= c <= '9' then c as int - '0' as int else c as int - 'a' as int + 10
  }

  /** Reading the digits of a hash back gives, position by position, the index each draw chose. */
  lemma HashRecordsDraws(draws: seq<real>, i: nat)
    requires ValidDraws(draws) && i < HashDigits
    ensures HexValue(BlockchainHash(draws)[2 + i]) == HexIndex(draws[i])
  {
    var h := BlockchainHash(draws);
    assert h[2 + i] == HexChars[HexIndex(draws[i])];
    var d := HexIndex(draws[i]);
    assert HexValue(HexChars[d]) == d by {
      assert forall j, k :: 0 <= j < k < 16 ==> HexChars[j] != HexChars[k];
    }
  }
}
