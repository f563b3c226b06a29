/** Bytes and their big-endian reading as unsigned numbers. */
module Bytes {

  type byte = x: int | 0 <= x < 256

  /** 256 to the power `k`: the number of distinct `k`-byte strings. */
  function Pow256(k: nat): (p: nat)
    ensures p >= 1
  {
    if k == 0 then 1 else 256 * Pow256(k - 1)
  }

  /** The `k` low-order bytes of `n`, most significant first. */
  function ToBytesBE(n: nat, k: nat): (s: seq<byte>)
    ensures |s| == k
  {
    if k == 0 then [] else ToBytesBE(n / 256, k - 1) + [n % 256]
  }

  /** The unsigned number whose big-endian encoding is `s`. */
  function FromBytesBE(s: seq<byte>): (n: nat)
    ensures n < Pow256(|s|)
  {
    if s == [] then 0 else FromBytesBE(s[..|s| - 1]) * 256 + s[|s| - 1]
  }

  /** Decoding undoes encoding for every number that fits in `k` bytes. */
  lemma {:induction false} FromToBytesBE(n: nat, k: nat)
    requires n < Pow256(k)
    ensures FromBytesBE(ToBytesBE(n, k)) == n
  {
    if k > 0 {
      var s := ToBytesBE(n, k);
      assert s[..k - 1] == ToBytesBE(n / 256, k - 1);
      FromToBytesBE(n / 256, k - 1);
    }
  }

  /** Encoding undoes decoding: every byte string is the encoding of its value. */
  lemma {:induction false} ToFromBytesBE(s: seq<byte>)
    ensures ToBytesBE(FromBytesBE(s), |s|) == s
  {
    if s != [] {
      var init := s[..|s| - 1];
      ToFromBytesBE(init);
      var n := FromBytesBE(s);
      assert n / 256 == FromBytesBE(init) && n % 256 == s[|s| - 1];
      assert s == init + [s[|s| - 1]];
    }
  }
}
