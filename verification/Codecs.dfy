/**
 gzip, AES-256-GCM and SHA-256 as parameters with their laws. A theorem that needs a law takes
 `Lawful(c)` as a hypothesis; nothing is assumed globally.
 */
module Codecs {
  import opened Wrappers

  type Bytes = seq<bv8>
  type Key = string
  type Digest = string

  const IV_LENGTH := 16
  const TAG_LENGTH := 16

  datatype Sealed = Sealed(tag: Bytes, cipher: Bytes)

  datatype Codec = Codec(
    gzip: Bytes -> Bytes,
    gunzip: Bytes -> Option<Bytes>,
    encrypt: (Key, Bytes, Bytes) -> Sealed,
    decrypt: (Key, Bytes, Bytes, Bytes) -> Option<Bytes>,
    digest: Bytes -> Digest)

  /** The two identification bytes of section 2.3.1 of RFC 1952. */
  predicate Gzipped(x: Bytes) {
    |x| >= 2 && x[0] == 0x1f && x[1] == 0x8b
  }

  ghost predicate GzipLaws(c: Codec) {
    && (forall x :: c.gunzip(c.gzip(x)) == Some(x))
    && (forall x :: Gzipped(c.gzip(x)))
  }

  /** Sections 7.1 and 7.2 of NIST SP 800-38D: decryption inverts encryption, the ciphertext is as long as
      the plaintext, and decryption fails unless the tag is the one encryption would produce. An empty IV
      or a tag of the wrong length is rejected. */
  ghost predicate GcmLaws(c: Codec) {
    && (forall k, iv, x :: |iv| == IV_LENGTH ==>
          var e := c.encrypt(k, iv, x);
          |e.tag| == TAG_LENGTH && |e.cipher| == |x| && c.decrypt(k, iv, e.tag, e.cipher) == Some(x))
    && (forall k, iv, tag, cipher :: c.decrypt(k, iv, tag, cipher).Some? ==>
          |iv| > 0 && |tag| == TAG_LENGTH && c.encrypt(k, iv, c.decrypt(k, iv, tag, cipher).value) == Sealed(tag, cipher))
  }

  /** GCM is counter mode: what a prefix of the plaintext encrypts to is a prefix of the whole ciphertext. */
  ghost predicate StreamLaw(c: Codec) {
    forall k, iv, x, y :: |iv| == IV_LENGTH && x <= y ==> c.encrypt(k, iv, x).cipher <= c.encrypt(k, iv, y).cipher
  }

  ghost predicate Lawful(c: Codec) {
    GzipLaws(c) && GcmLaws(c) && StreamLaw(c) && forall x :: c.digest(x) != ""
  }

  /** The laws have a model. */
  lemma LawsHaveAModel() returns (c: Codec)
    ensures Lawful(c)
  {
    var zeros: Bytes := seq(TAG_LENGTH, i => 0);
    c := Codec(
      x => [0x1f, 0x8b] + x,
      x => if Gzipped(x) then Some(x[2..]) else None,
      (k, iv, x) => Sealed(zeros, x),
      (k, iv, tag, cipher) => if |iv| > 0 && tag == zeros then Some(cipher) else None,
      x => "00");
    forall x: Bytes ensures c.gunzip(c.gzip(x)) == Some(x) {
      assert ([0x1f, 0x8b as bv8] + x)[2..] == x;
    }
  }

  /** The last stage of every decoder here: unzip what looks zipped, keep what does not unzip. */
  function Opened(c: Codec, x: Bytes): Bytes {
    if Gzipped(x) && c.gunzip(x).Some? then c.gunzip(x).value else x
  }
}
