/** Datagram layout and packet encryption: constants, big-endian sequence numbers, framing, and
    the buffer-to-buffer `encrypt_packet` and `decrypt_packet`. */
module Wire {
  import opened Options
  import opened Words

  type byte = x: int | 0 <= x < 256

  type Bytes = seq<byte>

  const HEADER_SIZE: nat := 8
  const SEQ_SIZE: nat := 8
  const IV_LEN: nat := 12
  const TAG_LEN: nat := 16
  const CRYPTO_OVERHEAD: nat := IV_LEN + TAG_LEN
  const WIRE_OVERHEAD: nat := HEADER_SIZE + SEQ_SIZE + CRYPTO_OVERHEAD
  const BUFFER_SIZE: nat := 2048
  const PLAIN_BUFFER: nat := HEADER_SIZE + SEQ_SIZE + BUFFER_SIZE
  const WIRE_BUFFER: nat := BUFFER_SIZE + WIRE_OVERHEAD

  /** A random nonce. */
  type Iv = b: Bytes | |b| == 12 witness [0, 0, 0, 0, 0, 0, 0, 0, 0, 0, 0, 0]

  /** `pkt_header` */
  const MAGIC: Bytes := [0xde, 0xad, 0xbe, 0xef, 0xca, 0xfe, 0xba, 0xbe]

  // ----- big-endian numbers

  /** The `k` low-order bytes of `n`, most significant first. */
  function BigEndian(n: nat, k: nat): (r: Bytes)
    ensures |r| == k
  {
    if k == 0 then [] else BigEndian(n / 256, k - 1) + [n % 256]
  }

  function FromBigEndian(b: Bytes): nat {
    if b == [] then 0 else 256 * FromBigEndian(b[..|b| - 1]) + b[|b| - 1]
  }

  function Pow256(k: nat): nat {
    if k == 0 then 1 else 256 * Pow256(k - 1)
  }

  lemma Pow256Of8()
    ensures Pow256(8) == TWO_TO_THE_64
  {}

  lemma {:induction false} BigEndianRoundTrip(n: nat, k: nat)
    requires n < Pow256(k)
    ensures FromBigEndian(BigEndian(n, k)) == n
  {
    if k > 0 {
      BigEndianRoundTrip(n / 256, k - 1);
      assert BigEndian(n, k)[..k - 1] == BigEndian(n / 256, k - 1);
    }
  }

  lemma {:induction false} FromBigEndianBound(b: Bytes)
    ensures FromBigEndian(b) < Pow256(|b|)
  {
    if b != [] {
      FromBigEndianBound(b[..|b| - 1]);
    }
  }

  /** The most significant byte comes first. */
  lemma {:induction false} FromBigEndianAppend(high: Bytes, low: Bytes)
    ensures FromBigEndian(high + low) == FromBigEndian(high) * Pow256(|low|) + FromBigEndian(low)
  {
    if low == [] {
      assert high + low == high;
    } else {
      var n := |low| - 1;
      assert (high + low)[..|high + low| - 1] == high + low[..n];
      FromBigEndianAppend(high, low[..n]);
      TimesMore(FromBigEndian(high), Pow256(n));
    }
  }

  lemma TimesMore(a: nat, b: nat)
    ensures 256 * (a * b) == a * (256 * b)
  {}

  // ----- framing

  /** Header, sequence number, payload. */
  function Frame(s: uint64, payload: Bytes): (r: Bytes)
    ensures |r| == HEADER_SIZE + SEQ_SIZE + |payload|
  {
    MAGIC + BigEndian(s, 8) + payload
  }

  /** The test a receiver applies to a decrypted packet. */
  predicate Framed(plain: Bytes) {
    |plain| >= HEADER_SIZE + SEQ_SIZE && plain[..HEADER_SIZE] == MAGIC
  }

  /** `be64toh` of the sequence field. */
  function SeqOf(plain: Bytes): uint64
    requires Framed(plain)
  {
    FromBigEndianBound(plain[8..16]);
    Pow256Of8();
    FromBigEndian(plain[8..16])
  }

  function PayloadOf(plain: Bytes): Bytes
    requires Framed(plain)
  {
    plain[16..]
  }

  /** A receiver reads back the number and the payload that were framed. */
  lemma FrameRoundTrip(s: uint64, payload: Bytes)
    ensures Framed(Frame(s, payload))
    ensures SeqOf(Frame(s, payload)) == s
    ensures PayloadOf(Frame(s, payload)) == payload
  {
    var f := Frame(s, payload);
    assert f[..8] == MAGIC;
    assert f[8..16] == BigEndian(s, 8);
    Pow256Of8();
    BigEndianRoundTrip(s, 8);
  }

  // ----- authenticated encryption

  /** AES-256-GCM as a pair of functions: `seal(key, iv, plain)` is ciphertext and tag,
      `open(key, iv, sealed)` checks the tag. */
  datatype Cipher = Cipher(seal: (Bytes, Bytes, Bytes) -> Bytes, open: (Bytes, Bytes, Bytes) -> Option<Bytes>) {
    /** What is assumed of the cipher: opening undoes sealing, and the lengths are those of GCM. */
    ghost predicate Sound() {
      && (forall k, iv, p :: |seal(k, iv, p)| == |p| + TAG_LEN && open(k, iv, seal(k, iv, p)) == Some(p))
      && (forall k, iv, c :: open(k, iv, c).Some? ==> |c| == |open(k, iv, c).value| + TAG_LEN)
    }
  }

  /** A cipher that only tags: it shows that the assumptions can be met, and opens nothing under a key
      with another tag. */
  function ToyTag(k: Bytes): (r: Bytes)
    ensures |r| == TAG_LEN
  {
    if |k| >= TAG_LEN then k[..TAG_LEN] else [0, 0, 0, 0, 0, 0, 0, 0, 0, 0, 0, 0, 0, 0, 0, 0]
  }

  const TOY_CIPHER: Cipher := Cipher(
    (k: Bytes, iv: Bytes, p: Bytes) => p + ToyTag(k),
    (k: Bytes, iv: Bytes, c: Bytes) =>
      if |c| >= TAG_LEN && c[|c| - TAG_LEN..] == ToyTag(k) then Some(c[..|c| - TAG_LEN]) else None)

  lemma ToyCipherIsSound()
    ensures TOY_CIPHER.Sound()
  {}

  type Aead = a: Cipher | a.Sound() witness (ToyCipherIsSound(); TOY_CIPHER)

  function Encrypted(aead: Aead, key: Bytes, iv: Iv, plain: Bytes): Bytes {
    iv + aead.seal(key, iv, plain)
  }

  function Decrypted(aead: Aead, key: Bytes, wire: Bytes): Option<Bytes> {
    if |wire| < CRYPTO_OVERHEAD then None else aead.open(key, wire[..IV_LEN], wire[IV_LEN..])
  }

  /** Decryption under the sending key returns the plaintext, and never grows a packet. */
  lemma DecryptRoundTrip(aead: Aead, key: Bytes, iv: Iv, plain: Bytes)
    ensures Decrypted(aead, key, Encrypted(aead, key, iv, plain)) == Some(plain)
  {}

  /** `memcpy(dst + off, src, |src|)` */
  method CopyIn(dst: array<byte>, off: nat, src: Bytes)
    requires off + |src| <= dst.Length
    modifies dst
    ensures dst[off..off + |src|] == src
    ensures dst[..off] == old(dst[..off]) && dst[off + |src|..] == old(dst[off + |src|..])
  {
    forall i | 0 <= i < |src| {
      dst[off + i] := src[i];
    }
  }

  /** `encrypt_packet`; `iv` is the outcome of the random generator. */
  method EncryptPacket(aead: Aead, key: Bytes, iv: Option<Iv>, plain: array<byte>, plainLen: nat, out: array<byte>)
    returns (outLen: Option<nat>)
    requires plainLen <= plain.Length && plainLen + CRYPTO_OVERHEAD <= out.Length && plain != out
    modifies out
    ensures outLen == if iv.Some? then Some(plainLen + CRYPTO_OVERHEAD) else None
    ensures iv.Some? ==> out[..plainLen + CRYPTO_OVERHEAD] == Encrypted(aead, key, iv.value, plain[..plainLen])
  {
    if iv.None? {
      return None;
    }
    var sealed := aead.seal(key, iv.value, plain[..plainLen]);
    CopyIn(out, IV_LEN, sealed);
    ghost var tail := out[IV_LEN..IV_LEN + |sealed|];
    CopyIn(out, 0, iv.value);
    assert out[IV_LEN..][..|sealed|] == tail;
    assert out[..IV_LEN + |sealed|] == iv.value + sealed;
    return Some(plainLen + CRYPTO_OVERHEAD);
  }

  /** `decrypt_packet`. On failure nothing is promised about `out`: the cipher may already have
      written to it. */
  method DecryptPacket(aead: Aead, key: Bytes, wire: array<byte>, wireLen: nat, out: array<byte>)
    returns (outLen: Option<nat>)
    requires wireLen <= wire.Length && wireLen <= out.Length + CRYPTO_OVERHEAD && wire != out
    modifies out
    ensures outLen.None? <==> Decrypted(aead, key, wire[..wireLen]).None?
    ensures outLen.Some? ==> outLen.value + CRYPTO_OVERHEAD == wireLen &&
                             Decrypted(aead, key, wire[..wireLen]) == Some(out[..outLen.value])
  {
    if wireLen < CRYPTO_OVERHEAD {
      return None;
    }
    var plain := aead.open(key, wire[..IV_LEN], wire[IV_LEN..wireLen]);
    assert wire[..wireLen][..IV_LEN] == wire[..IV_LEN] && wire[..wireLen][IV_LEN..] == wire[IV_LEN..wireLen];
    if plain.None? {
      return None;
    }
    CopyIn(out, 0, plain.value);
    return Some(|plain.value|);
  }
}
