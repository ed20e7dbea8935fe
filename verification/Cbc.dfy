/** The cipher block chaining mode of section 6.2 of NIST SP 800-38A, over any block cipher. */
module Cbc {
  import opened Lists

  type Bytes = seq<bv8>

  /** A block cipher: `E` and `D` keep the length of a block, and `D` undoes `E`. */
  datatype Cipher = Cipher(E: Bytes -> Bytes, D: Bytes -> Bytes, bs: nat)

  ghost predicate CipherOk(c: Cipher) {
    && c.bs > 0
    && (forall b: Bytes | |b| == c.bs :: |c.E(b)| == c.bs)
    && (forall b: Bytes | |b| == c.bs :: |c.D(b)| == c.bs)
  }

  ghost predicate Inverse(c: Cipher) {
    forall b: Bytes | |b| == c.bs :: c.D(c.E(b)) == b
  }

  function Xor(a: Bytes, b: Bytes): (r: Bytes)
    requires |a| == |b|
    ensures |r| == |a|
  {
    seq(|a|, i requires 0 <= i < |a| => a[i] ^ b[i])
  }

  lemma XorTwice(a: Bytes, b: Bytes)
    requires |a| == |b|
    ensures Xor(Xor(a, b), a) == b && Xor(a, b) == Xor(b, a)
  {}

  // ---------------------------------------------------------------- blocks

  /** Where block `k` begins. */
  function Off(bs: nat, k: nat): nat {
    if k == 0 then 0 else Off(bs, k - 1) + bs
  }

  lemma {:induction false} OffMono(bs: nat, i: nat, j: nat)
    requires i <= j
    ensures Off(bs, i) <= Off(bs, j)
    ensures i < j ==> Off(bs, i) + bs <= Off(bs, j)
    decreases j
  {
    if i < j { OffMono(bs, i, j - 1); }
  }

  lemma {:induction false} OffAdd(bs: nat, i: nat, j: nat)
    ensures Off(bs, i + j) == Off(bs, i) + Off(bs, j)
  {
    if j > 0 { OffAdd(bs, i, j - 1); }
  }

  function BlockAt(s: Bytes, bs: nat, k: nat): (b: Bytes)
    requires Off(bs, k + 1) <= |s|
    ensures |b| == bs
  {
    s[Off(bs, k)..Off(bs, k) + bs]
  }

  // ---------------------------------------------------------------- the mode

  /** C(k) of the standard for the plaintext `s`; C(0) is the initialization vector. */
  ghost function CipherBlock(c: Cipher, iv: Bytes, s: Bytes, k: nat): (b: Bytes)
    requires CipherOk(c) && |iv| == c.bs && Off(c.bs, k) <= |s|
    ensures |b| == c.bs
  {
    if k == 0 then iv else c.E(Xor(CipherBlock(c, iv, s, k - 1), BlockAt(s, c.bs, k - 1)))
  }

  /** The ciphertext block before block `k` of `s`. */
  ghost function Previous(c: Cipher, iv: Bytes, s: Bytes, k: nat): (b: Bytes)
    requires |iv| == c.bs && Off(c.bs, k) <= |s|
    ensures |b| == c.bs
  {
    if k == 0 then iv else BlockAt(s, c.bs, k - 1)
  }

  /** P(k + 1) of the standard for the ciphertext `s`. */
  ghost function PlainBlock(c: Cipher, iv: Bytes, s: Bytes, k: nat): (b: Bytes)
    requires CipherOk(c) && |iv| == c.bs && Off(c.bs, k + 1) <= |s|
    ensures |b| == c.bs
  {
    Xor(c.D(BlockAt(s, c.bs, k)), Previous(c, iv, s, k))
  }

  /** The encryption of the first `n` blocks of `s`. */
  ghost function EncBytes(c: Cipher, iv: Bytes, s: Bytes, n: nat): (r: Bytes)
    requires CipherOk(c) && |iv| == c.bs && Off(c.bs, n) <= |s|
    ensures |r| == Off(c.bs, n)
  {
    if n == 0 then [] else EncBytes(c, iv, s, n - 1) + CipherBlock(c, iv, s, n)
  }

  /** The decryption of the blocks of `s` from `j` up to `n`. */
  ghost function DecFrom(c: Cipher, iv: Bytes, s: Bytes, j: nat, n: nat): (r: Bytes)
    requires CipherOk(c) && |iv| == c.bs && j <= n && Off(c.bs, n) <= |s|
    ensures |r| == Off(c.bs, n) - Off(c.bs, j)
    decreases n - j
  {
    if j == n then []
    else
      OffMono(c.bs, j + 1, n);
      PlainBlock(c, iv, s, j) + DecFrom(c, iv, s, j + 1, n)
  }

  ghost function DecBytes(c: Cipher, iv: Bytes, s: Bytes, n: nat): (r: Bytes)
    requires CipherOk(c) && |iv| == c.bs && Off(c.bs, n) <= |s|
    ensures |r| == Off(c.bs, n)
  {
    DecFrom(c, iv, s, 0, n)
  }

  lemma {:induction false} DecOneMore(c: Cipher, iv: Bytes, s: Bytes, j: nat, n: nat)
    requires CipherOk(c) && |iv| == c.bs && j <= n && Off(c.bs, n + 1) <= |s|
    ensures DecFrom(c, iv, s, j, n + 1) == DecFrom(c, iv, s, j, n) + PlainBlock(c, iv, s, n)
    decreases n - j
  {
    hide PlainBlock, CipherOk;
    if j < n {
      DecOneMore(c, iv, s, j + 1, n);
      OffMono(c.bs, j + 1, n);
      Assoc(PlainBlock(c, iv, s, j), DecFrom(c, iv, s, j + 1, n), PlainBlock(c, iv, s, n));
    }
  }

  /** The blocks of the encryption are those of the standard. */
  lemma {:induction false} EncBlock(c: Cipher, iv: Bytes, s: Bytes, n: nat, k: nat)
    requires CipherOk(c) && |iv| == c.bs && Off(c.bs, n) <= |s| && k < n
    ensures Off(c.bs, k + 1) <= Off(c.bs, n)
    ensures BlockAt(EncBytes(c, iv, s, n), c.bs, k) == CipherBlock(c, iv, s, k + 1)
  {
    OffMono(c.bs, k + 1, n);
    if k + 1 < n {
      EncBlock(c, iv, s, n - 1, k);
      OffMono(c.bs, k + 1, n - 1);
      InnerBlock(EncBytes(c, iv, s, n - 1), CipherBlock(c, iv, s, n), c.bs, k);
    } else {
      LastBlock(EncBytes(c, iv, s, n - 1), CipherBlock(c, iv, s, n), c.bs, k);
    }
  }

  lemma InnerBlock(e: Bytes, b: Bytes, bs: nat, k: nat)
    requires Off(bs, k + 1) <= |e|
    ensures BlockAt(e + b, bs, k) == BlockAt(e, bs, k)
  {}

  lemma LastBlock(e: Bytes, b: Bytes, bs: nat, k: nat)
    requires |e| == Off(bs, k) && |b| == bs
    ensures BlockAt(e + b, bs, k) == b
  {}

  /** Block `k` of `d` decrypts to block `k` of `s`. */
  ghost predicate Recovers(c: Cipher, iv: Bytes, s: Bytes, d: Bytes, k: nat)
    requires CipherOk(c) && |iv| == c.bs
  {
    Off(c.bs, k + 1) <= |s| && Off(c.bs, k + 1) <= |d| && PlainBlock(c, iv, d, k) == BlockAt(s, c.bs, k)
  }

  lemma PlainOfCipher(c: Cipher, iv: Bytes, s: Bytes, d: Bytes, k: nat)
    requires CipherOk(c) && Inverse(c) && |iv| == c.bs && Off(c.bs, k + 1) <= |s| && Off(c.bs, k + 1) <= |d|
    requires BlockAt(d, c.bs, k) == CipherBlock(c, iv, s, k + 1)
    requires Previous(c, iv, d, k) == CipherBlock(c, iv, s, k)
    ensures Recovers(c, iv, s, d, k)
  {
    XorTwice(CipherBlock(c, iv, s, k), BlockAt(s, c.bs, k));
  }

  lemma RoundTripBlock(c: Cipher, iv: Bytes, s: Bytes, n: nat, k: nat)
    requires CipherOk(c) && Inverse(c) && |iv| == c.bs && k < n && Off(c.bs, n) <= |s|
    ensures Recovers(c, iv, s, EncBytes(c, iv, s, n), k)
  {
    OffMono(c.bs, k + 1, n);
    EncBlock(c, iv, s, n, k);
    if k > 0 { EncBlock(c, iv, s, n, k - 1); }
    PlainOfCipher(c, iv, s, EncBytes(c, iv, s, n), k);
  }

  lemma SliceBlock(s: Bytes, bs: nat, j: nat, n: nat)
    requires j < n && Off(bs, n) <= |s|
    ensures Off(bs, j + 1) <= Off(bs, n)
    ensures s[Off(bs, j)..Off(bs, n)] == BlockAt(s, bs, j) + s[Off(bs, j + 1)..Off(bs, n)]
  {
    OffMono(bs, j + 1, n);
  }

  lemma {:induction false} RoundTripTail(c: Cipher, iv: Bytes, s: Bytes, d: Bytes, j: nat, n: nat)
    requires CipherOk(c) && |iv| == c.bs && j <= n && Off(c.bs, n) <= |s| && Off(c.bs, n) <= |d|
    requires forall k | j <= k < n :: Recovers(c, iv, s, d, k)
    ensures Off(c.bs, j) <= Off(c.bs, n) && DecFrom(c, iv, d, j, n) == s[Off(c.bs, j)..Off(c.bs, n)]
    decreases n - j
  {
    hide PlainBlock, CipherOk, BlockAt;
    OffMono(c.bs, j, n);
    if j < n {
      RoundTripTail(c, iv, s, d, j + 1, n);
      assert Recovers(c, iv, s, d, j);
      SliceBlock(s, c.bs, j, n);
    }
  }

  /** Decrypting what has been encrypted gives the plaintext back. */
  lemma RoundTrip(c: Cipher, iv: Bytes, s: Bytes, n: nat)
    requires CipherOk(c) && Inverse(c) && |iv| == c.bs && Off(c.bs, n) <= |s|
    ensures DecBytes(c, iv, EncBytes(c, iv, s, n), n) == s[..Off(c.bs, n)]
  {
    forall k | 0 <= k < n ensures Recovers(c, iv, s, EncBytes(c, iv, s, n), k) {
      RoundTripBlock(c, iv, s, n, k);
    }
    RoundTripTail(c, iv, s, EncBytes(c, iv, s, n), 0, n);
  }

  // ---------------------------------------------------------------- chunks

  lemma BlockOfRest(s: Bytes, bs: nat, m: nat, k: nat)
    requires Off(bs, m + k + 1) <= |s|
    ensures Off(bs, m) <= |s| && Off(bs, k + 1) <= |s| - Off(bs, m)
    ensures BlockAt(s[Off(bs, m)..], bs, k) == BlockAt(s, bs, m + k)
  {
    OffAdd(bs, m, k);
    OffAdd(bs, m, k + 1);
  }

  /** Encrypting goes on with the last ciphertext block as the initialization vector. */
  lemma {:induction false} CipherGoesOn(c: Cipher, iv: Bytes, s: Bytes, m: nat, k: nat)
    requires CipherOk(c) && |iv| == c.bs && Off(c.bs, m + k) <= |s|
    ensures Off(c.bs, m) <= |s| && Off(c.bs, k) <= |s| - Off(c.bs, m)
    ensures CipherBlock(c, CipherBlock(c, iv, s, m), s[Off(c.bs, m)..], k) == CipherBlock(c, iv, s, m + k)
  {
    hide Xor, CipherOk, BlockAt;
    OffAdd(c.bs, m, k);
    if k > 0 {
      CipherGoesOn(c, iv, s, m, k - 1);
      BlockOfRest(s, c.bs, m, k - 1);
      assert m + k - 1 == m + (k - 1);
    }
  }

  /** And so does decrypting. */
  lemma PlainGoesOn(c: Cipher, iv: Bytes, s: Bytes, m: nat, k: nat)
    requires CipherOk(c) && |iv| == c.bs && Off(c.bs, m + k + 1) <= |s|
    ensures Off(c.bs, m) <= |s| && Off(c.bs, k + 1) <= |s| - Off(c.bs, m)
    ensures PlainBlock(c, Previous(c, iv, s, m), s[Off(c.bs, m)..], k) == PlainBlock(c, iv, s, m + k)
  {
    BlockOfRest(s, c.bs, m, k);
    if k > 0 { BlockOfRest(s, c.bs, m, k - 1); }
  }

  /** The encryption of chunks one after the other, each going on where the one before ended. */
  lemma {:induction false} EncChunks(c: Cipher, iv: Bytes, s: Bytes, m: nat, k: nat)
    requires CipherOk(c) && |iv| == c.bs && Off(c.bs, m + k) <= |s|
    ensures Off(c.bs, m) <= |s| && Off(c.bs, k) <= |s| - Off(c.bs, m)
    ensures EncBytes(c, iv, s, m) + EncBytes(c, CipherBlock(c, iv, s, m), s[Off(c.bs, m)..], k) == EncBytes(c, iv, s, m + k)
  {
    hide CipherBlock, CipherOk;
    OffAdd(c.bs, m, k);
    if k > 0 {
      EncChunks(c, iv, s, m, k - 1);
      CipherGoesOn(c, iv, s, m, k);
      var iv1, t := CipherBlock(c, iv, s, m), s[Off(c.bs, m)..];
      Assoc(EncBytes(c, iv, s, m), EncBytes(c, iv1, t, k - 1), CipherBlock(c, iv1, t, k));
      assert m + k - 1 == m + (k - 1);
    } else {
      assert EncBytes(c, iv, s, m) + [] == EncBytes(c, iv, s, m);
    }
  }

  lemma JoinMore(x: Bytes, y: Bytes, z: Bytes, p: Bytes)
    requires x + y == z
    ensures x + (y + p) == z + p
  {}

  lemma DecNothing(c: Cipher, iv: Bytes, s: Bytes)
    requires CipherOk(c) && |iv| == c.bs
    ensures DecFrom(c, iv, s, 0, 0) == []
  {}

  lemma {:induction false} DecChunks(c: Cipher, iv: Bytes, s: Bytes, m: nat, k: nat)
    requires CipherOk(c) && |iv| == c.bs && Off(c.bs, m + k) <= |s|
    ensures Off(c.bs, m) <= |s| && Off(c.bs, k) <= |s| - Off(c.bs, m)
    ensures DecBytes(c, iv, s, m) + DecBytes(c, Previous(c, iv, s, m), s[Off(c.bs, m)..], k) == DecBytes(c, iv, s, m + k)
  {
    hide PlainBlock, CipherOk, BlockAt, Previous, DecFrom;
    OffAdd(c.bs, m, k);
    var iv1, t := Previous(c, iv, s, m), s[Off(c.bs, m)..];
    if k > 0 {
      var h := k - 1;
      OffAdd(c.bs, m, h);
      DecChunks(c, iv, s, m, h);
      DecOneMore(c, iv1, t, 0, h);
      assert m + k == m + h + 1;
      DecOneMore(c, iv, s, 0, m + h);
      PlainGoesOn(c, iv, s, m, h);
      JoinMore(DecBytes(c, iv, s, m), DecBytes(c, iv1, t, h), DecBytes(c, iv, s, m + h), PlainBlock(c, iv1, t, h));
    } else {
      DecNothing(c, iv1, t);
      assert DecBytes(c, iv, s, m) + [] == DecBytes(c, iv, s, m);
    }
  }

  // ---------------------------------------------------------------- a copy of the first bytes is enough

  lemma BlockOfFront(s: Bytes, n: nat, bs: nat, k: nat)
    requires Off(bs, k + 1) <= n <= |s|
    ensures BlockAt(s[..n], bs, k) == BlockAt(s, bs, k)
  {}

  lemma {:induction false} EncFront(c: Cipher, iv: Bytes, s: Bytes, n: nat, k: nat)
    requires CipherOk(c) && |iv| == c.bs && Off(c.bs, k) <= n <= |s|
    ensures EncBytes(c, iv, s[..n], k) == EncBytes(c, iv, s, k) && CipherBlock(c, iv, s[..n], k) == CipherBlock(c, iv, s, k)
  {
    if k > 0 {
      EncFront(c, iv, s, n, k - 1);
      BlockOfFront(s, n, c.bs, k - 1);
    }
  }

  lemma PlainFront(c: Cipher, iv: Bytes, s: Bytes, n: nat, k: nat)
    requires CipherOk(c) && |iv| == c.bs && Off(c.bs, k) <= n <= |s|
    ensures Previous(c, iv, s[..n], k) == Previous(c, iv, s, k)
    ensures Off(c.bs, k + 1) <= n ==> PlainBlock(c, iv, s[..n], k) == PlainBlock(c, iv, s, k)
  {
    if k > 0 { BlockOfFront(s, n, c.bs, k - 1); }
    if Off(c.bs, k + 1) <= n { BlockOfFront(s, n, c.bs, k); }
  }

  lemma {:induction false} DecFront(c: Cipher, iv: Bytes, s: Bytes, n: nat, j: nat, k: nat)
    requires CipherOk(c) && |iv| == c.bs && j <= k && Off(c.bs, k) <= n <= |s|
    ensures DecFrom(c, iv, s[..n], j, k) == DecFrom(c, iv, s, j, k)
    decreases k - j
  {
    hide PlainBlock, CipherOk;
    if j < k {
      OffMono(c.bs, j + 1, k);
      PlainFront(c, iv, s, n, j);
      DecFront(c, iv, s, n, j + 1, k);
    }
  }
}
