/** The loops of cbc.c over byte buffers, each proved against the mode. */
module CbcLoops {
  import opened Cbc

  // ---------------------------------------------------------------- writing into a buffer

  /** The buffer with `b` written at `i`. */
  function Spliced(s: Bytes, i: nat, b: Bytes): (r: Bytes)
    requires i + |b| <= |s|
    ensures |r| == |s|
  {
    seq(|s|, k requires 0 <= k < |s| => if i <= k < i + |b| then b[k - i] else s[k])
  }

  lemma SplicedAt(s: Bytes, i: nat, b: Bytes, j: nat)
    requires i + |b| <= |s| && j < |s|
    ensures Spliced(s, i, b)[j] == if i <= j < i + |b| then b[j - i] else s[j]
  {}

  /** Two writes, the second right behind the first or right before it. */
  lemma SpliceOn(s: Bytes, i: nat, a: Bytes, b: Bytes)
    requires i + |a| + |b| <= |s|
    ensures Spliced(Spliced(s, i, a), i + |a|, b) == Spliced(s, i, a + b)
    ensures Spliced(Spliced(s, i + |a|, b), i, a) == Spliced(s, i, a + b)
  {}

  /** A later write to the same place wins. */
  lemma SpliceOver(s: Bytes, i: nat, a: Bytes, b: Bytes)
    requires i + |a| <= |s| && |a| == |b|
    ensures Spliced(Spliced(s, i, a), i, b) == Spliced(s, i, b)
    ensures Spliced(s, i, a)[i..i + |a|] == a
  {}

  lemma SubSlice(s: Bytes, p: nat, n: nat, i: nat, k: nat)
    requires i + k <= n && p + n <= |s|
    ensures s[p..p + n][i..i + k] == s[p + i..p + i + k]
  {
    var l, r := s[p..p + n][i..i + k], s[p + i..p + i + k];
    forall t | 0 <= t < k ensures l[t] == r[t] {
      assert l[t] == s[p..p + n][i + t];
    }
  }

  /** Stores a word or a block that has been computed. */
  method Store(a: array<bv8>, ai: nat, x: Bytes, ghost a0: Bytes, ghost r: Bytes)
    requires ai + |x| <= a.Length == |a0| && a[..] == a0 && r == Spliced(a0, ai, x)
    modifies a
    ensures a[..] == r
  {
    var i := 0;
    while i < |x|
      invariant i <= |x|
      invariant forall j | 0 <= j < i :: a[ai + j] == x[j]
      invariant forall j | 0 <= j < a.Length && !(ai <= j < ai + i) :: a[j] == old(a[j])
    {
      a[ai + i] := x[i];
      i := i + 1;
    }
  }

  /** The first `i` bytes of `u` at `ai` have been xored with those of `w`; the others, and `w` in
      `b`, are still there. */
  ghost predicate Xored(a0: Bytes, ai: nat, u: Bytes, w: Bytes, i: nat, a: Bytes)
    requires i <= |u| == |w| && ai + |u| <= |a0|
  {
    a == Spliced(a0, ai, Xor(u, w)[..i])
  }

  lemma XorReads(a0: Bytes, ai: nat, u: Bytes, w: Bytes, i: nat, a: Bytes, k: nat)
    requires i + k <= |u| == |w| && ai + |u| <= |a0| && Xored(a0, ai, u, w, i, a) && a0[ai..ai + |u|] == u
    ensures a[ai + i..ai + i + k] == u[i..i + k]
  {
    hide Spliced, Xor;
    var x, y := a[ai + i..ai + i + k], u[i..i + k];
    forall j | 0 <= j < k ensures x[j] == y[j] {
      SplicedAt(a0, ai, Xor(u, w)[..i], ai + i + j);
      assert a0[ai..ai + |u|][i + j] == u[i + j];
    }
  }

  /** The second operand is in another buffer, or in a part of this one that is not written. */
  lemma XorReadsOther(a0: Bytes, ai: nat, u: Bytes, w: Bytes, i: nat, a: Bytes, bi: nat, k: nat)
    requires i + k <= |u| == |w| && ai + |u| <= |a0| && Xored(a0, ai, u, w, i, a)
    requires bi + |w| <= |a0| && a0[bi..bi + |w|] == w && (ai + |u| <= bi || bi + |u| <= ai)
    ensures a[bi + i..bi + i + k] == w[i..i + k]
  {
    hide Spliced, Xor;
    var x, y := a[bi + i..bi + i + k], w[i..i + k];
    forall j | 0 <= j < k ensures x[j] == y[j] {
      SplicedAt(a0, ai, Xor(u, w)[..i], bi + i + j);
      assert a0[bi..bi + |w|][i + j] == w[i + j];
    }
  }

  lemma XorStep(a0: Bytes, ai: nat, u: Bytes, w: Bytes, i: nat, a: Bytes, k: nat)
    requires i + k <= |u| == |w| && ai + |u| <= |a0| && Xored(a0, ai, u, w, i, a)
    ensures Xored(a0, ai, u, w, i + k, Spliced(a, ai + i, Xor(u[i..i + k], w[i..i + k])))
  {
    hide Spliced;
    var x := Xor(u, w);
    XorSlice(u, w, i, k);
    SpliceOn(a0, ai, x[..i], x[i..i + k]);
    assert x[..i] + x[i..i + k] == x[..i + k];
  }

  lemma XorSlice(u: Bytes, w: Bytes, i: nat, k: nat)
    requires i + k <= |u| == |w|
    ensures Xor(u[i..i + k], w[i..i + k]) == Xor(u, w)[i..i + k]
  {}

  /** The operands of crypto_xor: `u` at `ai` in the first buffer and `w` at `bi` in the second. */
  ghost predicate Operands(a: array<bv8>, ai: nat, b: array<bv8>, bi: nat, a0: Bytes, b0: Bytes, u: Bytes, w: Bytes)
    reads b
  {
    && |u| == |w| && ai + |u| <= a.Length == |a0| && bi + |w| <= b.Length == |b0|
    && a0[ai..ai + |u|] == u && b0[bi..bi + |w|] == w
    && if a == b then a0 == b0 && (ai + |u| <= bi || bi + |u| <= ai) else b[..] == b0
  }

  /** One unit of crypto_xor, a word of four bytes or a byte: it is loaded, xored and stored. */
  method XorNext(a: array<bv8>, ai: nat, b: array<bv8>, bi: nat, i: nat, k: nat,
                 ghost a0: Bytes, ghost b0: Bytes, ghost u: Bytes, ghost w: Bytes)
    requires Operands(a, ai, b, bi, a0, b0, u, w) && i + k <= |u| && Xored(a0, ai, u, w, i, a[..])
    modifies a
    ensures Operands(a, ai, b, bi, a0, b0, u, w) && Xored(a0, ai, u, w, i + k, a[..])
  {
    hide Spliced, Xor;
    ghost var pa := a[..];
    XorReads(a0, ai, u, w, i, pa, k);
    var ua := a[ai + i..ai + i + k];
    if a == b {
      XorReadsOther(a0, ai, u, w, i, pa, bi, k);
    } else {
      SubSlice(b0, bi, |w|, i, k);
    }
    var wb := b[bi + i..bi + i + k];
    assert ua == u[i..i + k] && wb == w[i..i + k];
    XorStep(a0, ai, u, w, i, pa, k);
    Store(a, ai + i, Xor(ua, wb), pa, Spliced(pa, ai + i, Xor(ua, wb)));
  }

  /** The loop of crypto_xor over units of `k` bytes. */
  method XorUnits(a: array<bv8>, ai: nat, b: array<bv8>, bi: nat, n: nat, k: nat, i0: nat,
                  ghost a0: Bytes, ghost b0: Bytes, ghost u: Bytes, ghost w: Bytes) returns (i: nat)
    requires Operands(a, ai, b, bi, a0, b0, u, w) && i0 <= n == |u| && k > 0 && Xored(a0, ai, u, w, i0, a[..])
    modifies a
    ensures Operands(a, ai, b, bi, a0, b0, u, w) && i <= n < i + k && Xored(a0, ai, u, w, i, a[..])
  {
    hide Spliced, Xor;
    i := i0;
    while n - i >= k
      invariant Operands(a, ai, b, bi, a0, b0, u, w) && i <= n && Xored(a0, ai, u, w, i, a[..])
    {
      XorNext(a, ai, b, bi, i, k, a0, b0, u, w);
      i := i + k;
    }
  }

  /** crypto_xor: four bytes at a time, then the rest. */
  method XorInto(a: array<bv8>, ai: nat, b: array<bv8>, bi: nat, n: nat,
                 ghost a0: Bytes, ghost b0: Bytes, ghost u: Bytes, ghost w: Bytes, ghost r: Bytes)
    requires a[..] == a0 && Operands(a, ai, b, bi, a0, b0, u, w) && |u| == n && r == Spliced(a0, ai, Xor(u, w))
    modifies a
    ensures a[..] == r
  {
    hide Spliced, Xor;
    SpliceNothing(a0, ai);
    var i := XorUnits(a, ai, b, bi, n, 4, 0, a0, b0, u, w);
    i := XorUnits(a, ai, b, bi, n, 1, i, a0, b0, u, w);
    assert Xor(u, w)[..n] == Xor(u, w);
  }

  lemma SpliceNothing(s: Bytes, i: nat)
    requires i <= |s|
    ensures Spliced(s, i, []) == s
  {}

  lemma SpliceWhole(s: Bytes, b: Bytes)
    requires |b| == |s|
    ensures Spliced(s, 0, b) == b && s[0..|s|] == s
  {}

  lemma BlockOfTail(s: Bytes, p: nat, bs: nat, k: nat)
    requires p <= |s| && Off(bs, k + 1) <= |s| - p
    ensures p + Off(bs, k) + bs <= |s| && BlockAt(s[p..], bs, k) == s[p + Off(bs, k)..p + Off(bs, k) + bs]
  {}

  /** memcpy of a block into the vector. */
  method SetIv(iv: array<bv8>, x: Bytes, ghost iv0: Bytes)
    requires iv[..] == iv0 && |x| == iv.Length
    modifies iv
    ensures iv[..] == x
  {
    hide Spliced, Xor;
    SpliceWhole(iv0, x);
    Store(iv, 0, x, iv0, x);
  }

  // ---------------------------------------------------------------- encrypting

  /** `k` blocks of `s` have been encrypted into `d`, and the next block goes on from `v`. */
  ghost predicate EncDone(c: Cipher, iv: Bytes, s: Bytes, d0: Bytes, dp: nat, k: nat, d: Bytes, v: Bytes)
    requires CipherOk(c) && |iv| == c.bs && Off(c.bs, k) <= |s| && dp + Off(c.bs, k) <= |d0|
  {
    d == Spliced(d0, dp, EncBytes(c, iv, s, k)) && v == CipherBlock(c, iv, s, k)
  }

  lemma EncNext(c: Cipher, iv: Bytes, s: Bytes, d0: Bytes, dp: nat, k: nat, d: Bytes, v: Bytes, x: Bytes)
    requires CipherOk(c) && |iv| == c.bs && Off(c.bs, k + 1) <= |s| && dp + Off(c.bs, k + 1) <= |d0|
    requires EncDone(c, iv, s, d0, dp, k, d, v) && x == c.E(Xor(v, BlockAt(s, c.bs, k)))
    ensures |x| == c.bs && EncDone(c, iv, s, d0, dp, k + 1, Spliced(d, dp + Off(c.bs, k), x), x)
  {}

  /** One turn of crypto_cbc_encrypt_segment. */
  method EncSegmentBlock(c: Cipher, src: array<bv8>, sp: nat, dst: array<bv8>, dp: nat, iv: array<bv8>, q: nat,
                         ghost k: nat, ghost iv0: Bytes, ghost s: Bytes, ghost d0: Bytes)
    requires CipherOk(c) && iv.Length == c.bs == |iv0| && src != dst && iv != src && iv != dst && |d0| == dst.Length
    requires q == Off(c.bs, k) && sp + q + c.bs <= src.Length && dp + q + c.bs <= dst.Length && src[sp..] == s
    requires EncDone(c, iv0, s, d0, dp, k, dst[..], iv[..])
    modifies dst, iv
    ensures EncDone(c, iv0, s, d0, dp, k + 1, dst[..], iv[..])
  {
    hide Spliced, Xor;
    ghost var d, v := dst[..], iv[..];
    BlockOfTail(src[..], sp, c.bs, k);
    ghost var blk := BlockAt(s, c.bs, k);
    assert src[..][sp + q..sp + q + c.bs] == blk;
    SpliceWhole(v, v);
    SpliceWhole(v, Xor(v, blk));
    XorInto(iv, 0, src, sp + q, c.bs, v, src[..], v, blk, Xor(v, blk));
    var x := c.E(iv[..]);
    EncNext(c, iv0, s, d0, dp, k, d, v, x);
    ghost var r := Spliced(d, dp + q, x);
    SpliceOver(d, dp + q, x, x);
    Store(dst, dp + q, x, d, r);
    SetIv(iv, dst[dp + q..dp + q + c.bs], iv[..]);
  }

  /** The bytes left over after the whole blocks. */
  ghost predicate Whole(bs: nat, nbytes: nat, n: nat, left: nat) {
    Off(bs, n) + left == nbytes && left < bs
  }

  /** crypto_cbc_encrypt_segment. */
  method EncryptSegment(c: Cipher, src: array<bv8>, sp: nat, dst: array<bv8>, dp: nat, iv: array<bv8>, nbytes: nat)
    returns (left: nat, ghost n: nat)
    requires CipherOk(c) && iv.Length == c.bs && src != dst && iv != src && iv != dst
    requires c.bs <= nbytes && sp + nbytes <= src.Length && dp + nbytes <= dst.Length
    modifies dst, iv
    ensures Whole(c.bs, nbytes, n, left)
    ensures EncDone(c, old(iv[..]), src[sp..], old(dst[..]), dp, n, dst[..], iv[..])
  {
    hide Spliced, Xor;
    ghost var iv0, s, d0 := iv[..], src[sp..], dst[..];
    left, n := nbytes, 0;
    EncBegins(c, iv0, s, d0, dp);
    var q := 0;
    while left >= c.bs
      invariant q == Off(c.bs, n) && q + left == nbytes && src[sp..] == s
      invariant EncDone(c, iv0, s, d0, dp, n, dst[..], iv[..])
    {
      EncSegmentBlock(c, src, sp, dst, dp, iv, q, n, iv0, s, d0);
      left, q, n := left - c.bs, q + c.bs, n + 1;
    }
  }

  lemma EncBegins(c: Cipher, iv: Bytes, s: Bytes, d0: Bytes, dp: nat)
    requires CipherOk(c) && |iv| == c.bs && dp <= |d0|
    ensures EncDone(c, iv, s, d0, dp, 0, d0, iv)
  {}

  /** What has been encrypted in place so far, with the last block in the buffer. */
  ghost predicate EncInplace(c: Cipher, iv: Bytes, a0: Bytes, p: nat, k: nat, a: Bytes)
    requires CipherOk(c) && |iv| == c.bs && p + Off(c.bs, k) <= |a0|
  {
    a == Spliced(a0, p, EncBytes(c, iv, a0[p..], k))
  }

  /** The block behind and the block just written. */
  lemma InplaceReads(c: Cipher, iv: Bytes, a0: Bytes, p: nat, k: nat, a: Bytes)
    requires CipherOk(c) && |iv| == c.bs && p + Off(c.bs, k + 1) <= |a0| && EncInplace(c, iv, a0, p, k, a)
    ensures var q := p + Off(c.bs, k); a[q..q + c.bs] == BlockAt(a0[p..], c.bs, k)
  {}

  lemma InplaceNext(c: Cipher, iv: Bytes, a0: Bytes, p: nat, k: nat, a: Bytes, v: Bytes, y: Bytes, x: Bytes, at: nat)
    requires at == p + Off(c.bs, k)
    requires CipherOk(c) && |iv| == c.bs && p + Off(c.bs, k + 1) <= |a0| && EncInplace(c, iv, a0, p, k, a)
    requires v == CipherBlock(c, iv, a0[p..], k) && y == Xor(BlockAt(a0[p..], c.bs, k), v) && x == c.E(y)
    ensures |x| == c.bs
    ensures EncInplace(c, iv, a0, p, k + 1, Spliced(Spliced(a, at, y), at, x))
  {
    hide Spliced, Xor;
    XorTwice(v, BlockAt(a0[p..], c.bs, k));
    SpliceOver(a, at, y, x);
    SpliceOn(a0, p, EncBytes(c, iv, a0[p..], k), x);
  }

  lemma OffZero(bs: nat, k: nat)
    requires bs > 0
    ensures Off(bs, k) == 0 <==> k == 0
  {}

  /** The two operands in the buffer. */
  lemma InplaceOperands(c: Cipher, iv: Bytes, a0: Bytes, p: nat, k: nat, a: Bytes, at: nat)
    requires CipherOk(c) && |iv| == c.bs && k > 0 && p + Off(c.bs, k + 1) <= |a0| && EncInplace(c, iv, a0, p, k, a)
    requires at == p + Off(c.bs, k)
    ensures c.bs <= at && at + c.bs <= |a| && a[at..at + c.bs] == BlockAt(a0[p..], c.bs, k)
    ensures a[at - c.bs..at - c.bs + c.bs] == CipherBlock(c, iv, a0[p..], k)
  {}

  /** The xor of crypto_cbc_encrypt_inplace; the vector is the caller's for the first block and the
      block before in the buffer for the others. */
  method EncInplaceXor(c: Cipher, a: array<bv8>, p: nat, iv: array<bv8>, q: nat,
                       ghost k: nat, ghost a0: Bytes, ghost iv0: Bytes, ghost pa: Bytes, ghost blk: Bytes, ghost v: Bytes, ghost r: Bytes)
    requires CipherOk(c) && iv.Length == c.bs == |iv0| && iv != a && |a0| == a.Length && iv[..] == iv0
    requires q == Off(c.bs, k) && p + q + c.bs <= a.Length && a[..] == pa && EncInplace(c, iv0, a0, p, k, pa)
    requires blk == BlockAt(a0[p..], c.bs, k) && v == CipherBlock(c, iv0, a0[p..], k) && r == Spliced(pa, p + q, Xor(blk, v))
    modifies a
    ensures a[..] == r
  {
    hide Spliced, Xor, BlockAt;
    OffZero(c.bs, k);
    if q == 0 {
      InplaceReads(c, iv0, a0, p, 0, pa);
      SpliceWhole(iv0, iv0);
      XorInto(a, p + q, iv, 0, c.bs, pa, iv0, blk, v, r);
    } else {
      InplaceOperands(c, iv0, a0, p, k, pa, p + q);
      XorInto(a, p + q, a, p + q - c.bs, c.bs, pa, pa, blk, v, r);
    }
  }

  /** One turn of crypto_cbc_encrypt_inplace. */
  method EncInplaceBlock(c: Cipher, a: array<bv8>, p: nat, iv: array<bv8>, q: nat,
                         ghost k: nat, ghost a0: Bytes, ghost iv0: Bytes)
    requires CipherOk(c) && iv.Length == c.bs == |iv0| && iv != a && |a0| == a.Length && iv[..] == iv0
    requires q == Off(c.bs, k) && p + q + c.bs <= a.Length && EncInplace(c, iv0, a0, p, k, a[..])
    modifies a
    ensures EncInplace(c, iv0, a0, p, k + 1, a[..])
  {
    hide Spliced, Xor;
    ghost var pa := a[..];
    ghost var v, blk := CipherBlock(c, iv0, a0[p..], k), BlockAt(a0[p..], c.bs, k);
    ghost var y := Xor(blk, v);
    ghost var ya := Spliced(pa, p + q, y);
    EncInplaceXor(c, a, p, iv, q, k, a0, iv0, pa, blk, v, ya);
    SpliceOver(pa, p + q, y, y);
    var x := c.E(a[p + q..p + q + c.bs]);
    InplaceNext(c, iv0, a0, p, k, pa, v, y, x, p + q);
    Store(a, p + q, x, ya, Spliced(ya, p + q, x));
  }

  method EncInplaceLoop(c: Cipher, a: array<bv8>, p: nat, iv: array<bv8>, nbytes: nat, ghost a0: Bytes, ghost iv0: Bytes)
    returns (left: nat, q: nat, ghost n: nat)
    requires CipherOk(c) && iv.Length == c.bs == |iv0| && iv != a && c.bs <= nbytes && p + nbytes <= a.Length
    requires a[..] == a0 && iv[..] == iv0
    modifies a
    ensures Whole(c.bs, nbytes, n, left) && n > 0 && q == Off(c.bs, n) && EncInplace(c, iv0, a0, p, n, a[..])
  {
    hide Spliced, Xor;
    left, q, n := nbytes, 0, 0;
    SpliceNothing(a0, p);
    while left >= c.bs
      invariant q == Off(c.bs, n) && q + left == nbytes && iv[..] == iv0 && (left < nbytes ==> n > 0)
      invariant EncInplace(c, iv0, a0, p, n, a[..])
    {
      EncInplaceBlock(c, a, p, iv, q, n, a0, iv0);
      left, q, n := left - c.bs, q + c.bs, n + 1;
    }
  }

  lemma InplaceIsDone(c: Cipher, iv: Bytes, a0: Bytes, p: nat, n: nat, a: Bytes, q: nat)
    requires CipherOk(c) && |iv| == c.bs && n > 0 && p + Off(c.bs, n) <= |a0| && EncInplace(c, iv, a0, p, n, a) && q == Off(c.bs, n)
    ensures c.bs <= q && p + q <= |a| && |a[p + q - c.bs..p + q]| == c.bs
    ensures EncDone(c, iv, a0[p..], a0, p, n, a, a[p + q - c.bs..p + q])
  {}

  /** crypto_cbc_encrypt_inplace. */
  method EncryptInplace(c: Cipher, a: array<bv8>, p: nat, iv: array<bv8>, nbytes: nat) returns (left: nat, ghost n: nat)
    requires CipherOk(c) && iv.Length == c.bs && iv != a && c.bs <= nbytes && p + nbytes <= a.Length
    modifies a, iv
    ensures Whole(c.bs, nbytes, n, left)
    ensures EncDone(c, old(iv[..]), old(a[..])[p..], old(a[..]), p, n, a[..], iv[..])
  {
    hide Spliced, Xor;
    ghost var iv0, a0 := iv[..], a[..];
    var q;
    left, q, n := EncInplaceLoop(c, a, p, iv, nbytes, a0, iv0);
    InplaceIsDone(c, iv0, a0, p, n, a[..], q);
    SetIv(iv, a[p + q - c.bs..p + q], iv0);
  }

  // ---------------------------------------------------------------- decrypting

  /** `k` blocks of `s` have been decrypted into `d`. */
  ghost predicate DecDone(c: Cipher, iv: Bytes, s: Bytes, d0: Bytes, dp: nat, k: nat, d: Bytes)
    requires CipherOk(c) && |iv| == c.bs && Off(c.bs, k) <= |s| && dp + Off(c.bs, k) <= |d0|
  {
    d == Spliced(d0, dp, DecBytes(c, iv, s, k))
  }

  lemma DecNext(c: Cipher, iv: Bytes, s: Bytes, d0: Bytes, dp: nat, k: nat, d: Bytes, x: Bytes, y: Bytes, at: nat)
    requires CipherOk(c) && |iv| == c.bs && Off(c.bs, k + 1) <= |s| && dp + Off(c.bs, k + 1) <= |d0| && at == dp + Off(c.bs, k)
    requires DecDone(c, iv, s, d0, dp, k, d) && |x| == c.bs && y == PlainBlock(c, iv, s, k)
    ensures DecDone(c, iv, s, d0, dp, k + 1, Spliced(Spliced(d, at, x), at, y))
  {
    hide Spliced, Xor;
    SpliceOver(d, at, x, y);
    SpliceOn(d0, dp, DecBytes(c, iv, s, k), y);
    DecOneMore(c, iv, s, 0, k);
  }

  /** The xor of crypto_cbc_decrypt_segment; the vector is the caller's for the first block and the
      source block before for the others. */
  method DecSegmentXor(c: Cipher, src: array<bv8>, sp: nat, dst: array<bv8>, at: nat, iv: array<bv8>, q: nat,
                       ghost k: nat, ghost iv0: Bytes, ghost s0: Bytes, ghost d1: Bytes, ghost x: Bytes, ghost v: Bytes, ghost r: Bytes)
    requires iv.Length == c.bs == |iv0| == |x| && c.bs > 0 && src != dst && iv != dst && iv[..] == iv0
    requires q == Off(c.bs, k) && sp + q + c.bs <= src.Length && at + c.bs <= dst.Length && src[..] == s0
    requires dst[..] == d1 && d1[at..at + c.bs] == x && v == Previous(c, iv0, s0[sp..], k) && r == Spliced(d1, at, Xor(x, v))
    modifies dst
    ensures dst[..] == r
  {
    hide Spliced, Xor;
    OffZero(c.bs, k);
    if q == 0 {
      SpliceWhole(iv0, iv0);
      XorInto(dst, at, iv, 0, c.bs, d1, iv0, x, v, r);
    } else {
      BlockOfTail(s0, sp, c.bs, k - 1);
      XorInto(dst, at, src, sp + q - c.bs, c.bs, d1, s0, x, v, r);
    }
  }

  /** One turn of crypto_cbc_decrypt_segment. */
  method DecSegmentBlock(c: Cipher, src: array<bv8>, sp: nat, dst: array<bv8>, dp: nat, iv: array<bv8>, q: nat,
                         ghost k: nat, ghost iv0: Bytes, ghost s0: Bytes, ghost d0: Bytes)
    requires CipherOk(c) && iv.Length == c.bs == |iv0| && src != dst && iv != dst && |d0| == dst.Length && iv[..] == iv0
    requires q == Off(c.bs, k) && sp + q + c.bs <= src.Length && dp + q + c.bs <= dst.Length && src[..] == s0
    requires DecDone(c, iv0, s0[sp..], d0, dp, k, dst[..])
    modifies dst
    ensures DecDone(c, iv0, s0[sp..], d0, dp, k + 1, dst[..])
  {
    hide Spliced, Xor;
    ghost var d, s := dst[..], s0[sp..];
    BlockOfTail(s0, sp, c.bs, k);
    var x := c.D(src[sp + q..sp + q + c.bs]);
    ghost var d1, v := Spliced(d, dp + q, x), Previous(c, iv0, s, k);
    Store(dst, dp + q, x, d, d1);
    SpliceOver(d, dp + q, x, x);
    ghost var r := Spliced(d1, dp + q, Xor(x, v));
    DecSegmentXor(c, src, sp, dst, dp + q, iv, q, k, iv0, s0, d1, x, v, r);
    DecNext(c, iv0, s, d0, dp, k, d, x, Xor(x, v), dp + q);
  }

  /** crypto_cbc_decrypt_segment. */
  method DecryptSegment(c: Cipher, src: array<bv8>, sp: nat, dst: array<bv8>, dp: nat, iv: array<bv8>, nbytes: nat)
    returns (left: nat, ghost n: nat)
    requires CipherOk(c) && iv.Length == c.bs && src != dst && iv != src && iv != dst
    requires c.bs <= nbytes && sp + nbytes <= src.Length && dp + nbytes <= dst.Length
    modifies dst, iv
    ensures Whole(c.bs, nbytes, n, left)
    ensures DecDone(c, old(iv[..]), old(src[..])[sp..], old(dst[..]), dp, n, dst[..])
    ensures iv[..] == Previous(c, old(iv[..]), old(src[..])[sp..], n)
  {
    hide Spliced, Xor;
    ghost var iv0, s0, d0 := iv[..], src[..], dst[..];
    left, n := nbytes, 0;
    SpliceNothing(d0, dp);
    var q := 0;
    while left >= c.bs
      invariant q == Off(c.bs, n) && q + left == nbytes && src[..] == s0 && iv[..] == iv0 && (left < nbytes ==> n > 0)
      invariant DecDone(c, iv0, s0[sp..], d0, dp, n, dst[..])
    {
      DecSegmentBlock(c, src, sp, dst, dp, iv, q, n, iv0, s0, d0);
      left, q, n := left - c.bs, q + c.bs, n + 1;
    }
    BlockOfTail(s0, sp, c.bs, n - 1);
    var last := src[sp + q - c.bs..sp + q];
    assert last == Previous(c, iv0, s0[sp..], n);
    SetIv(iv, last, iv0);
  }

  /** The blocks from `j` on have been decrypted in place. */
  ghost predicate DecBack(c: Cipher, iv: Bytes, a0: Bytes, p: nat, j: nat, n: nat, a: Bytes)
    requires CipherOk(c) && |iv| == c.bs && j <= n && p + Off(c.bs, n) <= |a0|
  {
    OffMono(c.bs, j, n);
    a == Spliced(a0, p + Off(c.bs, j), DecFrom(c, iv, a0[p..], j, n))
  }

  /** The blocks before are still ciphertext. */
  lemma BackReads(c: Cipher, iv: Bytes, a0: Bytes, p: nat, j: nat, n: nat, a: Bytes, at: nat)
    requires CipherOk(c) && |iv| == c.bs && j < n && p + Off(c.bs, n) <= |a0| && DecBack(c, iv, a0, p, j + 1, n, a)
    requires at == p + Off(c.bs, j) && Off(c.bs, j + 1) <= Off(c.bs, n)
    ensures at + c.bs <= |a| && a[at..at + c.bs] == BlockAt(a0[p..], c.bs, j)
  {}

  /** The blocks behind `j` have been decrypted, and the cipher has been applied to block `j`. */
  ghost predicate Deciphered(c: Cipher, iv: Bytes, a0: Bytes, p: nat, j: nat, n: nat, a: Bytes)
    requires CipherOk(c) && |iv| == c.bs && j < n && p + Off(c.bs, n) <= |a0|
  {
    OffMono(c.bs, j + 1, n);
    a == Spliced(Spliced(a0, p + Off(c.bs, j + 1), DecFrom(c, iv, a0[p..], j + 1, n)), p + Off(c.bs, j), c.D(BlockAt(a0[p..], c.bs, j)))
  }

  lemma DecipheredReads(c: Cipher, iv: Bytes, a0: Bytes, p: nat, j: nat, n: nat, a: Bytes, at: nat)
    requires CipherOk(c) && |iv| == c.bs && j < n && p + Off(c.bs, n) <= |a0| && Deciphered(c, iv, a0, p, j, n, a)
    requires at == p + Off(c.bs, j)
    ensures at + c.bs <= |a| == |a0| && Off(c.bs, j + 1) <= |a0| - p
    ensures a[at..at + c.bs] == c.D(BlockAt(a0[p..], c.bs, j))
  {}

  lemma DecipheredPrevious(c: Cipher, iv: Bytes, a0: Bytes, p: nat, j: nat, n: nat, a: Bytes, at: nat)
    requires CipherOk(c) && |iv| == c.bs && 0 < j < n && p + Off(c.bs, n) <= |a0| && Deciphered(c, iv, a0, p, j, n, a)
    requires at == p + Off(c.bs, j) && Off(c.bs, j + 1) <= Off(c.bs, n)
    ensures c.bs <= at <= |a| && a[at - c.bs..at - c.bs + c.bs] == BlockAt(a0[p..], c.bs, j - 1)
  {}

  lemma SpliceJoin(s: Bytes, at: nat, t: Bytes, x: Bytes, y: Bytes)
    requires |x| == |y| && at + |x| + |t| <= |s|
    ensures Spliced(Spliced(Spliced(s, at + |x|, t), at, x), at, y) == Spliced(s, at, y + t)
  {}

  /** The xor completes block `j`. */
  lemma BackNext(c: Cipher, iv: Bytes, a0: Bytes, p: nat, j: nat, n: nat, a: Bytes, y: Bytes)
    requires CipherOk(c) && |iv| == c.bs && j < n && p + Off(c.bs, n) <= |a0| && Deciphered(c, iv, a0, p, j, n, a)
    requires Off(c.bs, j + 1) <= Off(c.bs, n) && y == PlainBlock(c, iv, a0[p..], j)
    ensures DecBack(c, iv, a0, p, j, n, Spliced(a, p + Off(c.bs, j), y))
  {
    hide Spliced, Xor;
    SpliceJoin(a0, p + Off(c.bs, j), DecFrom(c, iv, a0[p..], j + 1, n), c.D(BlockAt(a0[p..], c.bs, j)), y);
  }

  /** The cipher is applied to block `j` in place. */
  method DecInplaceCipher(c: Cipher, a: array<bv8>, p: nat, q: nat, ghost j: nat, ghost n: nat, ghost a0: Bytes, ghost iv0: Bytes)
    requires CipherOk(c) && c.bs == |iv0| && |a0| == a.Length
    requires j < n && q == Off(c.bs, j) && p + Off(c.bs, n) <= a.Length && DecBack(c, iv0, a0, p, j + 1, n, a[..])
    modifies a
    ensures Deciphered(c, iv0, a0, p, j, n, a[..])
  {
    hide Spliced, Xor;
    ghost var pa := a[..];
    OffMono(c.bs, j + 1, n);
    BackReads(c, iv0, a0, p, j, n, pa, p + q);
    var x := c.D(a[p + q..p + q + c.bs]);
    Store(a, p + q, x, pa, Spliced(pa, p + q, x));
  }

  /** What the xor of block `j` reads and what it leaves. */
  lemma DecXorReady(c: Cipher, iv: Bytes, a0: Bytes, p: nat, j: nat, n: nat, a: Bytes, at: nat) returns (x: Bytes, v: Bytes)
    requires CipherOk(c) && |iv| == c.bs && 0 < j < n && p + Off(c.bs, n) <= |a0| && Deciphered(c, iv, a0, p, j, n, a)
    requires at == p + Off(c.bs, j)
    ensures |x| == |v| == c.bs <= at && at + c.bs <= |a| == |a0|
    ensures a[at..at + c.bs] == x && a[at - c.bs..at - c.bs + c.bs] == v
    ensures DecBack(c, iv, a0, p, j, n, Spliced(a, at, Xor(x, v)))
  {
    hide Spliced, Xor;
    OffMono(c.bs, j + 1, n);
    DecipheredReads(c, iv, a0, p, j, n, a, at);
    DecipheredPrevious(c, iv, a0, p, j, n, a, at);
    x, v := c.D(BlockAt(a0[p..], c.bs, j)), BlockAt(a0[p..], c.bs, j - 1);
    BackNext(c, iv, a0, p, j, n, a, Xor(x, v));
  }

  /** Block `j` is xored with the ciphertext block before it. */
  method DecInplaceXor(c: Cipher, a: array<bv8>, p: nat, q: nat, ghost j: nat, ghost n: nat, ghost a0: Bytes, ghost iv0: Bytes)
    requires CipherOk(c) && c.bs == |iv0| && |a0| == a.Length
    requires 0 < j < n && q == Off(c.bs, j) && p + Off(c.bs, n) <= a.Length && Deciphered(c, iv0, a0, p, j, n, a[..])
    modifies a
    ensures DecBack(c, iv0, a0, p, j, n, a[..])
  {
    hide Spliced, Xor, Deciphered, DecBack;
    ghost var pa := a[..];
    ghost var x, v := DecXorReady(c, iv0, a0, p, j, n, pa, p + q);
    XorInto(a, p + q, a, p + q - c.bs, c.bs, pa, pa, x, v, Spliced(pa, p + q, Xor(x, v)));
  }

  /** The first block is xored with the caller's vector. */
  method DecInplaceFirst(c: Cipher, a: array<bv8>, p: nat, iv: array<bv8>, ghost n: nat, ghost a0: Bytes, ghost iv0: Bytes)
    requires CipherOk(c) && iv.Length == c.bs == |iv0| && iv != a && |a0| == a.Length && iv[..] == iv0
    requires 0 < n && p + Off(c.bs, n) <= a.Length && Deciphered(c, iv0, a0, p, 0, n, a[..])
    modifies a
    ensures DecBack(c, iv0, a0, p, 0, n, a[..])
  {
    hide Spliced, Xor;
    ghost var pa, s := a[..], a0[p..];
    DecipheredReads(c, iv0, a0, p, 0, n, pa, p);
    OffMono(c.bs, 1, n);
    SpliceWhole(iv0, iv0);
    ghost var x := c.D(BlockAt(s, c.bs, 0));
    BackNext(c, iv0, a0, p, 0, n, pa, Xor(x, iv0));
    XorInto(a, p, iv, 0, c.bs, pa, iv0, x, iv0, Spliced(pa, p, Xor(x, iv0)));
  }

  /** How many whole blocks there are. */
  lemma WholeBlocks(bs: nat, nbytes: nat) returns (n: nat)
    requires 0 < bs <= nbytes
    ensures n > 0 && Off(bs, n) == nbytes - nbytes % bs && Whole(bs, nbytes, n, nbytes % bs)
  {
    n := nbytes / bs;
    OffMul(bs, n);
    assert n * bs + nbytes % bs == nbytes;
    OffZero(bs, n);
  }

  lemma {:induction false} OffMul(bs: nat, k: nat)
    ensures Off(bs, k) == k * bs
  {
    if k > 0 { OffMul(bs, k - 1); }
  }

  /** One turn of crypto_cbc_decrypt_inplace; the last one stops before the xor. */
  method DecInplaceTurn(c: Cipher, a: array<bv8>, p: nat, q: nat, last: bool,
                        ghost e: nat, ghost n: nat, ghost a0: Bytes, ghost iv0: Bytes)
    requires CipherOk(c) && c.bs == |iv0| && |a0| == a.Length
    requires 0 < e <= n && q + c.bs == Off(c.bs, e) && p + Off(c.bs, n) <= a.Length && DecBack(c, iv0, a0, p, e, n, a[..])
    requires last <==> e == 1
    modifies a
    ensures last ==> Deciphered(c, iv0, a0, p, 0, n, a[..])
    ensures !last ==> DecBack(c, iv0, a0, p, e - 1, n, a[..])
  {
    hide Spliced, Xor;
    ghost var j := e - 1;
    assert j + 1 == e;
    DecInplaceCipher(c, a, p, q, j, n, a0, iv0);
    if !last {
      DecInplaceXor(c, a, p, q, j, n, a0, iv0);
    }
  }

  /** The loop of crypto_cbc_decrypt_inplace, from the last block to the first. */
  method DecInplaceLoop(c: Cipher, a: array<bv8>, p: nat, q0: nat, nbytes: nat, ghost n: nat, ghost a0: Bytes, ghost iv0: Bytes)
    returns (left: nat)
    requires CipherOk(c) && c.bs == |iv0| && |a0| == a.Length
    requires 0 < n && q0 + c.bs == Off(c.bs, n) && q0 + c.bs <= nbytes < q0 + 2 * c.bs && p + Off(c.bs, n) <= a.Length
    requires DecBack(c, iv0, a0, p, n, n, a[..])
    modifies a
    ensures left == nbytes - q0 - c.bs && Deciphered(c, iv0, a0, p, 0, n, a[..])
  {
    hide Spliced, Xor;
    left := nbytes;
    var q := q0;
    ghost var e := n;
    while true
      invariant 0 < e <= n && q + c.bs == Off(c.bs, e) && left == q + (nbytes - q0) && left >= c.bs
      invariant DecBack(c, iv0, a0, p, e, n, a[..])
      decreases e
    {
      left := left - c.bs;
      MoreBefore(c.bs, e, q, left, nbytes - q0);
      DecInplaceTurn(c, a, p, q, left < c.bs, e, n, a0, iv0);
      if left < c.bs {
        break;
      }
      q, e := q - c.bs, e - 1;
    }
  }

  lemma MoreBefore(bs: nat, e: nat, q: nat, left: nat, tail: nat)
    requires e > 0 && q + bs == Off(bs, e) && left + bs == q + tail && bs <= tail < 2 * bs
    ensures left < bs <==> e == 1
    ensures e > 1 ==> q == Off(bs, e - 1) && q >= bs
  {}

  /** crypto_cbc_decrypt_inplace.  The block size is a power of two, so the mask of the original is
      the remainder. */
  method DecryptInplace(c: Cipher, a: array<bv8>, p: nat, iv: array<bv8>, nbytes: nat) returns (left: nat, ghost n: nat)
    requires CipherOk(c) && iv.Length == c.bs && iv != a && c.bs <= nbytes && p + nbytes <= a.Length
    modifies a, iv
    ensures Whole(c.bs, nbytes, n, left)
    ensures DecDone(c, old(iv[..]), old(a[..])[p..], old(a[..]), p, n, a[..])
    ensures iv[..] == Previous(c, old(iv[..]), old(a[..])[p..], n)
  {
    hide Spliced, Xor;
    ghost var iv0, a0 := iv[..], a[..];
    n := WholeBlocks(c.bs, nbytes);
    var q := nbytes - nbytes % c.bs - c.bs;
    BlockOfTail(a0, p, c.bs, n - 1);
    var lastIv := a[p + q..p + q + c.bs];
    SpliceNothing(a0, p + Off(c.bs, n));
    assert lastIv == Previous(c, iv0, a0[p..], n);
    left := DecInplaceLoop(c, a, p, q, nbytes, n, a0, iv0);
    DecInplaceFirst(c, a, p, iv, n, a0, iv0);
    SetIv(iv, lastIv, iv0);
  }

  // ---------------------------------------------------------------- the walks

  lemma SpliceTail(s: Bytes, b: Bytes)
    requires |b| <= |s|
    ensures Spliced(s, 0, b)[|b|..] == s[|b|..]
  {}

  /** A chunk encrypted behind the blocks that have been encrypted before. */
  lemma EncAdvance(c: Cipher, iv: Bytes, s: Bytes, d0: Bytes, m: nat, d: Bytes, v: Bytes, k: nat, d': Bytes, v': Bytes)
    requires CipherOk(c) && |iv| == c.bs && Off(c.bs, m) <= |s| && Off(c.bs, m) <= |d0|
    requires EncDone(c, iv, s, d0, 0, m, d, v) && Off(c.bs, k) <= |s| - Off(c.bs, m) && Off(c.bs, m) + Off(c.bs, k) <= |d|
    requires EncDone(c, v, s[Off(c.bs, m)..], d, Off(c.bs, m), k, d', v')
    ensures Off(c.bs, m + k) == Off(c.bs, m) + Off(c.bs, k) && EncDone(c, iv, s, d0, 0, m + k, d', v')
  {
    hide Spliced, Xor;
    OffAdd(c.bs, m, k);
    EncChunks(c, iv, s, m, k);
    CipherGoesOn(c, iv, s, m, k);
    SpliceOn(d0, 0, EncBytes(c, iv, s, m), EncBytes(c, v, s[Off(c.bs, m)..], k));
  }

  lemma DecAdvance(c: Cipher, iv: Bytes, s: Bytes, d0: Bytes, m: nat, d: Bytes, k: nat, d': Bytes)
    requires CipherOk(c) && |iv| == c.bs && Off(c.bs, m) <= |s| && Off(c.bs, m) <= |d0|
    requires DecDone(c, iv, s, d0, 0, m, d) && Off(c.bs, k) <= |s| - Off(c.bs, m) && Off(c.bs, m) + Off(c.bs, k) <= |d|
    requires DecDone(c, Previous(c, iv, s, m), s[Off(c.bs, m)..], d, Off(c.bs, m), k, d')
    ensures Off(c.bs, m + k) == Off(c.bs, m) + Off(c.bs, k) && DecDone(c, iv, s, d0, 0, m + k, d')
  {
    hide Spliced, Xor;
    OffAdd(c.bs, m, k);
    DecChunks(c, iv, s, m, k);
    SpliceOn(d0, 0, DecBytes(c, iv, s, m), DecBytes(c, Previous(c, iv, s, m), s[Off(c.bs, m)..], k));
  }

  lemma PreviousGoesOn(c: Cipher, iv: Bytes, s: Bytes, m: nat, k: nat)
    requires |iv| == c.bs && Off(c.bs, m + k) <= |s|
    ensures Off(c.bs, m) <= |s| && Off(c.bs, k) <= |s| - Off(c.bs, m)
    ensures Previous(c, Previous(c, iv, s, m), s[Off(c.bs, m)..], k) == Previous(c, iv, s, m + k)
  {
    OffAdd(c.bs, m, k);
    if k > 0 { BlockOfRest(s, c.bs, m, k - 1); }
  }

  /** The size of the next chunk of the walk: at least a block, at most what is left. */
  function ChunkSize(bs: nat, left: nat, wish: nat): nat {
    if wish < bs then bs else if wish > left then left else wish
  }

  /** A page with the next bytes of the source. */
  method CopiedPage(src: array<bv8>, pos: nat, nb: nat) returns (page: array<bv8>)
    requires pos + nb <= src.Length
    ensures fresh(page) && page.Length == nb && page[..] == src[pos..pos + nb]
  {
    page := new bv8[nb];
    ghost var p := page[..];
    SpliceWhole(p, src[pos..pos + nb]);
    Store(page, 0, src[pos..pos + nb], p, src[pos..pos + nb]);
  }

  /** What is done of the page is copied to where it belongs. */
  lemma PageDone(s: Bytes, pos: nat, nb: nat, p0: Bytes, r: Bytes, p: Bytes)
    requires pos + nb <= |s| && p0 == s[pos..pos + nb] && |r| <= nb && p == Spliced(p0, 0, r)
    ensures p0 == s[pos..][..nb] && p0[0..] == p0 && p[..|r|] == r
  {}

  /** A chunk that the walk copies to a page of its own, where it is encrypted in place. */
  method EncryptCopied(c: Cipher, src: array<bv8>, dst: array<bv8>, iv: array<bv8>, pos: nat, nb: nat) returns (left: nat, ghost k: nat)
    requires CipherOk(c) && iv.Length == c.bs && iv != src && iv != dst
    requires c.bs <= nb && pos + nb <= src.Length && pos + nb <= dst.Length
    modifies dst, iv
    ensures Whole(c.bs, nb, k, left)
    ensures EncDone(c, old(iv[..]), old(src[..])[pos..], old(dst[..]), pos, k, dst[..], iv[..])
  {
    hide Spliced, Xor;
    ghost var s, d, v := src[..], dst[..], iv[..];
    var page := CopiedPage(src, pos, nb);
    ghost var p0 := page[..];
    left, k := EncryptInplace(c, page, 0, iv, nb);
    ghost var r := EncBytes(c, v, s[pos..], k);
    PageDone(s, pos, nb, p0, EncBytes(c, v, p0[0..], k), page[..]);
    EncFront(c, v, s[pos..], nb, k);
    Store(dst, pos, page[..nb - left], d, Spliced(d, pos, r));
  }

  method DecryptCopied(c: Cipher, src: array<bv8>, dst: array<bv8>, iv: array<bv8>, pos: nat, nb: nat) returns (left: nat, ghost k: nat)
    requires CipherOk(c) && iv.Length == c.bs && iv != src && iv != dst
    requires c.bs <= nb && pos + nb <= src.Length && pos + nb <= dst.Length
    modifies dst, iv
    ensures Whole(c.bs, nb, k, left)
    ensures DecDone(c, old(iv[..]), old(src[..])[pos..], old(dst[..]), pos, k, dst[..])
    ensures iv[..] == Previous(c, old(iv[..]), old(src[..])[pos..], k)
  {
    hide Spliced, Xor;
    ghost var s, d, v := src[..], dst[..], iv[..];
    var page := CopiedPage(src, pos, nb);
    ghost var p0 := page[..];
    left, k := DecryptInplace(c, page, 0, iv, nb);
    ghost var r := DecBytes(c, v, s[pos..], k);
    PageDone(s, pos, nb, p0, DecBytes(c, v, p0[0..], k), page[..]);
    DecFront(c, v, s[pos..], nb, 0, k);
    PlainFront(c, v, s[pos..], nb, k);
    Store(dst, pos, page[..nb - left], d, Spliced(d, pos, r));
  }

  /** One chunk of crypto_cbc_encrypt. */
  method EncryptChunk(c: Cipher, src: array<bv8>, dst: array<bv8>, iv: array<bv8>, pos: nat, nb: nat, copied: bool,
                      ghost m: nat, ghost iv0: Bytes, ghost s0: Bytes, ghost d0: Bytes) returns (left: nat, ghost k: nat)
    requires CipherOk(c) && iv.Length == c.bs == |iv0| && iv != src && iv != dst
    requires pos == Off(c.bs, m) && c.bs <= nb && pos + nb <= src.Length == |s0| && pos + nb <= dst.Length == |d0|
    requires if src == dst then s0 == d0 else src[..] == s0
    requires EncDone(c, iv0, s0, d0, 0, m, dst[..], iv[..])
    modifies dst, iv
    ensures k > 0 && Whole(c.bs, nb, k, left) && Off(c.bs, m + k) == pos + nb - left
    ensures EncDone(c, iv0, s0, d0, 0, m + k, dst[..], iv[..])
  {
    hide Spliced, Xor;
    ghost var d, v := dst[..], iv[..];
    if src == dst { SpliceTail(s0, EncBytes(c, iv0, s0, m)); }
    assert src[..][pos..] == s0[pos..];
    if copied {
      left, k := EncryptCopied(c, src, dst, iv, pos, nb);
    } else if src == dst {
      left, k := EncryptInplace(c, dst, pos, iv, nb);
    } else {
      assert src[pos..] == s0[pos..];
      left, k := EncryptSegment(c, src, pos, dst, pos, iv, nb);
    }
    OffZero(c.bs, k);
    EncAdvance(c, iv0, s0, d0, m, d, v, k, dst[..], iv[..]);
  }

  /** crypto_cbc_encrypt: however the walk cuts the data into chunks (`wish` gives their sizes) and
      whichever of them it copies to a page of their own, the result is the encryption of the whole. */
  method Encrypt(c: Cipher, src: array<bv8>, dst: array<bv8>, iv: array<bv8>, total: nat, wish: nat -> nat, copied: nat -> bool)
    returns (left: nat, ghost n: nat)
    requires CipherOk(c) && iv.Length == c.bs && iv != src && iv != dst && total <= src.Length && total <= dst.Length
    modifies dst, iv
    ensures Whole(c.bs, total, n, left)
    ensures EncDone(c, old(iv[..]), old(src[..]), old(dst[..]), 0, n, dst[..], iv[..])
  {
    hide Spliced, Xor;
    ghost var iv0, s0, d0 := iv[..], src[..], dst[..];
    EncBegins(c, iv0, s0, d0, 0);
    var pos, i := 0, 0;
    n, left := 0, total;
    while left >= c.bs
      invariant pos == Off(c.bs, n) && pos + left == total
      invariant if src == dst then s0 == d0 else src[..] == s0
      invariant EncDone(c, iv0, s0, d0, 0, n, dst[..], iv[..])
      decreases left
    {
      var nb := ChunkSize(c.bs, left, wish(i));
      var rest;
      ghost var k;
      rest, k := EncryptChunk(c, src, dst, iv, pos, nb, copied(i), n, iv0, s0, d0);
      left, pos, i, n := left - (nb - rest), pos + (nb - rest), i + 1, n + k;
    }
  }

  /** One chunk of crypto_cbc_decrypt. */
  method DecryptChunk(c: Cipher, src: array<bv8>, dst: array<bv8>, iv: array<bv8>, pos: nat, nb: nat, copied: bool,
                      ghost m: nat, ghost iv0: Bytes, ghost s0: Bytes, ghost d0: Bytes) returns (left: nat, ghost k: nat)
    requires CipherOk(c) && iv.Length == c.bs == |iv0| && iv != src && iv != dst
    requires pos == Off(c.bs, m) && c.bs <= nb && pos + nb <= src.Length == |s0| && pos + nb <= dst.Length == |d0|
    requires if src == dst then s0 == d0 else src[..] == s0
    requires DecDone(c, iv0, s0, d0, 0, m, dst[..]) && iv[..] == Previous(c, iv0, s0, m)
    modifies dst, iv
    ensures k > 0 && Whole(c.bs, nb, k, left) && Off(c.bs, m + k) == pos + nb - left
    ensures DecDone(c, iv0, s0, d0, 0, m + k, dst[..]) && iv[..] == Previous(c, iv0, s0, m + k)
  {
    hide Spliced, Xor;
    ghost var d := dst[..];
    if src == dst { SpliceTail(s0, DecBytes(c, iv0, s0, m)); }
    assert src[..][pos..] == s0[pos..];
    if copied {
      left, k := DecryptCopied(c, src, dst, iv, pos, nb);
    } else if src == dst {
      left, k := DecryptInplace(c, dst, pos, iv, nb);
    } else {
      left, k := DecryptSegment(c, src, pos, dst, pos, iv, nb);
    }
    OffZero(c.bs, k);
    DecAdvance(c, iv0, s0, d0, m, d, k, dst[..]);
    PreviousGoesOn(c, iv0, s0, m, k);
  }

  /** crypto_cbc_decrypt: the same for every way of cutting the data and of copying chunks. */
  method Decrypt(c: Cipher, src: array<bv8>, dst: array<bv8>, iv: array<bv8>, total: nat, wish: nat -> nat, copied: nat -> bool)
    returns (left: nat, ghost n: nat)
    requires CipherOk(c) && iv.Length == c.bs && iv != src && iv != dst && total <= src.Length && total <= dst.Length
    modifies dst, iv
    ensures Whole(c.bs, total, n, left)
    ensures DecDone(c, old(iv[..]), old(src[..]), old(dst[..]), 0, n, dst[..])
    ensures iv[..] == Previous(c, old(iv[..]), old(src[..]), n)
  {
    hide Spliced, Xor;
    ghost var iv0, s0, d0 := iv[..], src[..], dst[..];
    SpliceNothing(d0, 0);
    var pos, i := 0, 0;
    n, left := 0, total;
    while left >= c.bs
      invariant pos == Off(c.bs, n) && pos + left == total
      invariant if src == dst then s0 == d0 else src[..] == s0
      invariant DecDone(c, iv0, s0, d0, 0, n, dst[..]) && iv[..] == Previous(c, iv0, s0, n)
      decreases left
    {
      var nb := ChunkSize(c.bs, left, wish(i));
      var rest;
      ghost var k;
      rest, k := DecryptChunk(c, src, dst, iv, pos, nb, copied(i), n, iv0, s0, d0);
      left, pos, i, n := left - (nb - rest), pos + (nb - rest), i + 1, n + k;
    }
  }
}
