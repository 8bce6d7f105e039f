/** HMAC over an arbitrary 32-byte hash with 64-byte blocks, and the constant-time comparison. */
module Hmac {
  import opened Bytes

  const BLOCK_SIZE := 64

  ghost predicate Digests32(hash: bytes -> bytes) { forall m :: |hash(m)| == 32 }

  function Zeros(n: nat): (z: bytes)
    ensures |z| == n
  {
    seq(n, i => 0)
  }

  /** The key of section 2 of RFC 2104: hashed when longer than a block, then zero-filled to a block. */
  function BlockKey(hash: bytes -> bytes, key: bytes): bytes {
    var k := if |key| > BLOCK_SIZE then hash(key) else key;
    if |k| < BLOCK_SIZE then k + Zeros(BLOCK_SIZE - |k|) else k
  }

  function XorEach(k: bytes, pad: bv8): bytes { seq(|k|, i requires 0 <= i < |k| => k[i] ^ pad) }

  /** H(K xor opad, H(K xor ipad, text)), section 2 of RFC 2104. */
  function Rfc2104(hash: bytes -> bytes, key: bytes, text: bytes): bytes {
    var k := BlockKey(hash, key);
    hash(XorEach(k, 0x5c) + hash(XorEach(k, 0x36) + text))
  }

  method CopyInto(k: array<bv8>, s: bytes)
    requires |s| <= k.Length
    modifies k
    ensures k[..] == s + old(k[|s|..])
  {
    for i := 0 to |s|
      invariant k[..i] == s[..i] && k[i..] == old(k[i..])
    {
      k[i] := s[i];
    }
  }

  method LoadKey(hash: bytes -> bytes, key: bytes) returns (k: array<bv8>)
    requires Digests32(hash)
    ensures fresh(k) && k[..] == BlockKey(hash, key)
  {
    k := new bv8[BLOCK_SIZE](_ => 0);
    assert k[..] == Zeros(BLOCK_SIZE);
    var s := if |key| > BLOCK_SIZE then hash(key) else key;
    CopyInto(k, s);
    assert k[..] == s + Zeros(BLOCK_SIZE - |s|);
  }

  /** The bytes of `pad` up to `n` are those of `k` with the fill, the others are the fill. */
  ghost predicate XoredUpTo(k: bytes, pad: bytes, fill: bv8, n: nat) {
    |k| == |pad| && n <= |k| && forall j :: 0 <= j < |k| ==> pad[j] == if j < n then k[j] ^ fill else fill
  }

  lemma OneMoreXored(k: bytes, pad: bytes, fill: bv8, n: nat)
    requires n < |k| && XoredUpTo(k, pad, fill, n)
    ensures XoredUpTo(k, pad[n := pad[n] ^ k[n]], fill, n + 1)
  {
    XorCommutes(fill, k[n]);
  }

  lemma AllXored(k: bytes, pad: bytes, fill: bv8)
    requires XoredUpTo(k, pad, fill, |k|)
    ensures pad == XorEach(k, fill)
  {}

  /** `a[i] ^= x`. */
  method XorAt(a: array<bv8>, i: nat, x: bv8)
    requires i < a.Length
    modifies a
    ensures a[..] == old(a[..])[i := old(a[i]) ^ x]
  {
    a[i] := a[i] ^ x;
  }

  method XorPads(k: array<bv8>, ipad: array<bv8>, opad: array<bv8>)
    requires k.Length == ipad.Length == opad.Length && k != ipad && k != opad && ipad != opad
    requires forall j :: 0 <= j < k.Length ==> ipad[j] == 0x36 && opad[j] == 0x5c
    modifies ipad, opad
    ensures ipad[..] == XorEach(k[..], 0x36) && opad[..] == XorEach(k[..], 0x5c)
  {
    for i := 0 to k.Length
      invariant XoredUpTo(k[..], ipad[..], 0x36, i) && XoredUpTo(k[..], opad[..], 0x5c, i)
    {
      OneMoreXored(k[..], ipad[..], 0x36, i);
      OneMoreXored(k[..], opad[..], 0x5c, i);
      XorAt(ipad, i, k[i]);
      XorAt(opad, i, k[i]);
    }
    AllXored(k[..], ipad[..], 0x36);
    AllXored(k[..], opad[..], 0x5c);
  }

  method HmacSha256(hash: bytes -> bytes, key: bytes, msg: bytes) returns (mac: bytes)
    requires Digests32(hash)
    ensures mac == Rfc2104(hash, key, msg)
  {
    var k := LoadKey(hash, key);
    var ipad := new bv8[k.Length](_ => 0x36);
    var opad := new bv8[k.Length](_ => 0x5c);
    XorPads(k, ipad, opad);
    var inner := hash(ipad[..] + msg);
    mac := hash(opad[..] + inner);
  }

  lemma XorCommutes(x: bv8, y: bv8)
    ensures x ^ y == y ^ x
  {}

  lemma OrOfXor(d: bv8, x: bv8, y: bv8)
    ensures d | (x ^ y) == 0 <==> d == 0 && x == y
  {}

  /** The comparison reads every byte and decides equality. */
  method CtEq(a: bytes, b: bytes) returns (same: bool)
    ensures same <==> a == b
  {
    if |a| != |b| { return false; }
    var diff: bv8 := 0;
    for i := 0 to |a|
      invariant diff == 0 <==> a[..i] == b[..i]
    {
      OrOfXor(diff, a[i], b[i]);
      assert a[..i + 1] == a[..i] + [a[i]] && b[..i + 1] == b[..i] + [b[i]];
      diff := diff | (a[i] ^ b[i]);
    }
    assert a[..|a|] == a && b[..|b|] == b;
    return diff == 0;
  }
}
