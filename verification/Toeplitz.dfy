/**
  Receive-side scaling: the Toeplitz hash with a cache of key windows (rss_key_cache),
  which is rebuilt after the key changes.

  Machine words are sequences of bits, most significant first: shifting left drops the
  first bit and appends one at the end.
 */
module Toeplitz {

  type Bits = seq<bool>

  const KEY_BYTES: nat := 52
  const CACHE_LEN: nat := 288

  // ------------------------------------------------------------------ bit vectors

  function Zeros(n: nat): (z: Bits)
    ensures |z| == n && forall j :: 0 <= j < n ==> !z[j]
  {
    seq(n, _ => false)
  }

  function Xor(a: Bits, b: Bits): (r: Bits)
    requires |a| == |b|
    ensures |r| == |a| && forall j :: 0 <= j < |a| ==> r[j] == (a[j] != b[j])
  {
    seq(|a|, j requires 0 <= j < |a| => a[j] != b[j])
  }

  function ShiftIn(w: Bits, bit: bool): (r: Bits)
    requires |w| > 0
    ensures |r| == |w|
  {
    w[1..] + [bit]
  }

  // ------------------------------------------------------------------ specification

  /** The key: 52 bytes of eight bits. */
  type Key = k: seq<Bits> | |k| == KEY_BYTES && (forall b :: 0 <= b < |k| ==> |k[b]| == 8)
    witness seq(52, _ => seq(8, _ => false))

  function KeyBit(k: Key, j: nat): bool
    requires j < 8 * KEY_BYTES
  {
    k[j / 8][j % 8]
  }

  // The 32 bits of the key from bit i on.
  function Window(k: Key, i: nat): (w: Bits)
    requires i + 32 <= 8 * KEY_BYTES
    ensures |w| == 32
  {
    seq(32, j requires 0 <= j < 32 => KeyBit(k, i + j))
  }

  /** The Toeplitz hash: the exclusive or of the key windows at the set input bits. */
  function Hash(k: Key, input: Bits): (r: Bits)
    requires |input| <= CACHE_LEN
    ensures |r| == 32
  {
    if input == [] then Zeros(32)
    else
      var n := |input| - 1;
      var h := Hash(k, input[..n]);
      if input[n] then Xor(h, Window(k, n)) else h
  }

  // As a product over GF(2): output bit j is the parity of the input bits whose key bit is set.
  function Parity(k: Key, input: Bits, j: nat): bool
    requires |input| <= CACHE_LEN && j < 32
  {
    if input == [] then false
    else
      var n := |input| - 1;
      Parity(k, input[..n], j) != (input[n] && KeyBit(k, n + j))
  }

  /** The two definitions agree. */
  lemma {:induction false} HashIsMatrixProduct(k: Key, input: Bits, j: nat)
    requires |input| <= CACHE_LEN && j < 32
    ensures Hash(k, input)[j] == Parity(k, input, j)
    decreases |input|
  {
    if input != [] {
      HashIsMatrixProduct(k, input[..|input| - 1], j);
    }
  }

  /** The hash is linear in its input. */
  lemma {:induction false} HashLinear(k: Key, a: Bits, b: Bits)
    requires |a| == |b| <= CACHE_LEN
    ensures Hash(k, Xor(a, b)) == Xor(Hash(k, a), Hash(k, b))
    decreases |a|
  {
    if a == [] {
      assert Xor(Hash(k, a), Hash(k, b)) == Zeros(32);
    } else {
      var n := |a| - 1;
      HashLinear(k, a[..n], b[..n]);
      assert Xor(a, b)[..n] == Xor(a[..n], b[..n]);
      LinearStep(Hash(k, a[..n]), Hash(k, b[..n]), Window(k, n), a[n], b[n]);
    }
  }

  lemma LinearStep(x: Bits, y: Bits, w: Bits, a: bool, b: bool)
    requires |x| == |y| == |w|
    ensures (if a != b then Xor(Xor(x, y), w) else Xor(x, y))
         == Xor(if a then Xor(x, w) else x, if b then Xor(y, w) else y)
  {
  }

  // ---------------------------------------------------------------- windows, one by one

  // Shifting in the next key bit moves the window on.
  lemma WindowNext(k: Key, i: nat)
    requires i + 33 <= 8 * KEY_BYTES
    ensures Window(k, i + 1) == ShiftIn(Window(k, i), KeyBit(k, i + 32))
  {
    var w, v := Window(k, i), Window(k, i + 1);
    var u := ShiftIn(w, KeyBit(k, i + 32));
    forall j | 0 <= j < 32 ensures v[j] == u[j] {
      if j < 31 {
        assert u[j] == w[j + 1];
      }
    }
  }

  lemma FirstWindow(k: Key)
    ensures k[0] + k[1] + k[2] + k[3] == Window(k, 0)
  {
    forall j | 0 <= j < 32 ensures (k[0] + k[1] + k[2] + k[3])[j] == KeyBit(k, j) {
      assert j / 8 < 4;
    }
  }

  // Hashing a longer input continues from the shorter one's hash.
  ghost function HashFrom(k: Key, at: nat, input: Bits, res: Bits): (r: Bits)
    requires at + |input| <= CACHE_LEN && |res| == 32
    ensures |r| == 32
    decreases |input|
  {
    if input == [] then res
    else HashFrom(k, at + 1, input[1..], if input[0] then Xor(res, Window(k, at)) else res)
  }

  lemma {:induction false} HashContinues(k: Key, before: Bits, input: Bits)
    requires |before| + |input| <= CACHE_LEN
    ensures HashFrom(k, |before|, input, Hash(k, before)) == Hash(k, before + input)
    decreases |input|
  {
    if input == [] {
      assert before + input == before;
    } else {
      var b := before + [input[0]];
      assert b[..|before|] == before;
      assert b + input[1..] == before + input;
      HashContinues(k, b, input[1..]);
    }
  }

  // ------------------------------------------------------------------------ the cache

  class KeyCache {
    var key: Key
    var dirty: bool
    const cache: array<Bits>

    // Unless it is marked dirty, the cache holds the current key's windows.
    ghost predicate Valid()
      reads this, cache
    {
      && cache.Length == CACHE_LEN
      && (!dirty ==> forall i :: 0 <= i < CACHE_LEN ==> cache[i] == Window(key, i))
    }

    constructor (key: Key)
      ensures Valid() && this.key == key && fresh(cache)
    {
      this.key, dirty := key, true;
      cache := new Bits[CACHE_LEN](_ => []);
    }

    // rss_key_updated: a register write stores four bytes of the key, lowest first.
    method WriteKey(i: nat, word: Bits)
      requires Valid() && i < KEY_BYTES / 4 && |word| == 32
      modifies this
      ensures Valid()
      ensures key == old(key)[4 * i := word[24..32]][4 * i + 1 := word[16..24]][4 * i + 2 := word[8..16]][4 * i + 3 := word[0..8]]
    {
      key := key[4 * i := word[24..32]][4 * i + 1 := word[16..24]][4 * i + 2 := word[8..16]][4 * i + 3 := word[0..8]];
      dirty := true;
    }

    // A device reset marks the cache and then loads the default key.
    method Reset(defaultKey: Key)
      requires Valid()
      modifies this
      ensures Valid() && key == defaultKey
    {
      dirty := true;
      key := defaultKey;
    }

    /** rss_key_cache::build */
    method Build()
      requires cache.Length == CACHE_LEN
      modifies this`dirty, cache
      ensures Valid() && !dirty
    {
      FirstWindow(key);
      var result := key[0] + key[1] + key[2] + key[3];
      var idx := 32;
      for i := 0 to CACHE_LEN
        invariant idx == i + 32
        invariant result == Window(key, i)
        invariant forall m :: 0 <= m < i ==> cache[m] == Window(key, m)
        modifies cache
      {
        cache[i] := result;
        var bit := key[idx / 8][idx % 8];
        WindowNext(key, i);
        result := ShiftIn(result, bit);
        idx := idx + 1;
      }
      dirty := false;
    }

    // One of the four loops of hash_ipv4: shifts the field out bit by bit.
    method HashField(field: Bits, at: nat, res0: Bits) returns (res: Bits)
      requires Valid() && !dirty && at + |field| <= CACHE_LEN && |res0| == 32 && |field| > 0
      ensures |res| == 32 && res == HashFrom(key, at, field, res0)
    {
      var f, n := field, |field|;
      res := res0;
      for i := 0 to n
        invariant |f| == n && |res| == 32 && f[..n - i] == field[i..]
        invariant HashFrom(key, at + i, field[i..], res) == HashFrom(key, at, field, res0)
      {
        assert f[0] == field[i];
        assert field[i..][1..] == field[i + 1..];
        if f[0] {
          res := Xor(res, cache[at + i]);
        }
        f := ShiftIn(f, false);
      }
    }

    /** rss_key_cache::hash_ipv4: whatever writes, resets and hashes came before, the result
        is the Toeplitz hash of the tuple under the current key. */
    method HashIpv4(sip: Bits, dip: Bits, sp: Bits, dp: Bits) returns (res: Bits)
      requires Valid() && |sip| == |dip| == 32 && |sp| == |dp| == 16
      modifies this`dirty, cache
      ensures Valid() && res == Hash(key, sip + dip + sp + dp)
    {
      if dirty {
        Build();
      }
      res := HashField(sip, 0, Zeros(32));
      HashContinues(key, [], sip);
      assert [] + sip == sip;
      res := HashField(dip, 32, res);
      HashContinues(key, sip, dip);
      res := HashField(sp, 64, res);
      HashContinues(key, sip + dip, sp);
      res := HashField(dp, 80, res);
      HashContinues(key, sip + dip + sp, dp);
    }
  }
}
