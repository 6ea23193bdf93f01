/** AES_128_CBC and the firmware encryption of `flash_firmware` in tools/kflash.py. */
module Cbc {
  import opened Gf256
  import opened Fips197
  import opened Aes
  import opened Wrappers

  function XorBlocks(a: Bytes16, b: Bytes16): Bytes16 {
    seq(16, i requires 0 <= i < 16 => Add(a[i], b[i]))
  }

  function ZeroBytes(n: nat): seq<bv8> {
    seq(n, _ => 0)
  }

  /** Cipher block chaining, section 6.2 of NIST SP 800-38A. */
  function ChainEncrypt(key: Key, iv: Bytes16, ps: seq<Bytes16>): (cs: seq<Bytes16>)
    ensures |cs| == |ps|
    decreases |ps|
  {
    hide Cipher;
    if ps == [] then []
    else var c := Cipher(key, XorBlocks(ps[0], iv)); [c] + ChainEncrypt(key, c, ps[1..])
  }

  function ChainDecrypt(key: Key, iv: Bytes16, cs: seq<Bytes16>): (ps: seq<Bytes16>)
    ensures |ps| == |cs|
    decreases |cs|
  {
    hide InvCipher;
    if cs == [] then []
    else [XorBlocks(InvCipher(key, cs[0]), iv)] + ChainDecrypt(key, cs[0], cs[1..])
  }

  lemma XorBlocksUndoes(a: Bytes16, b: Bytes16)
    ensures XorBlocks(XorBlocks(a, b), b) == a
  {
  }

  /** Decrypting any number of chained blocks returns the plaintext blocks. */
  lemma {:induction false} ChainInverts(key: Key, iv: Bytes16, ps: seq<Bytes16>)
    ensures ChainDecrypt(key, iv, ChainEncrypt(key, iv, ps)) == ps
    decreases |ps|
  {
    hide Cipher, InvCipher, XorBlocks;
    if ps != [] {
      var x := XorBlocks(ps[0], iv);
      var c := Cipher(key, x);
      InvCipherInverts(key, x);
      XorBlocksUndoes(ps[0], iv);
      ChainInverts(key, c, ps[1..]);
      assert ChainEncrypt(key, iv, ps)[1..] == ChainEncrypt(key, c, ps[1..]);
    }
  }

  lemma {:induction false} ChainEncryptAppend(key: Key, iv: Bytes16, ps: seq<Bytes16>, p: Bytes16)
    ensures ChainEncrypt(key, iv, ps + [p]) ==
            ChainEncrypt(key, iv, ps) + [Cipher(key, XorBlocks(p, LastOr(iv, ChainEncrypt(key, iv, ps))))]
    decreases |ps|
  {
    hide Cipher, XorBlocks;
    if ps == [] {
      assert ps + [p] == [p];
    } else {
      var c := Cipher(key, XorBlocks(ps[0], iv));
      assert (ps + [p])[1..] == ps[1..] + [p];
      ChainEncryptAppend(key, c, ps[1..], p);
    }
  }

  /** The block the next one is chained to. */
  function LastOr(iv: Bytes16, cs: seq<Bytes16>): Bytes16 {
    if cs == [] then iv else cs[|cs| - 1]
  }

  class Chain {
    const aes: AES
    var last: seq<bv8>

    constructor (aes: AES, iv: Bytes16)
      ensures this.aes == aes && last == iv
    {
      this.aes := aes;
      last := iv;
    }

    method Encrypt(plaintext: seq<bv8>) returns (r: Option<seq<bv8>>)
      requires aes.Valid() && |last| == 16
      modifies this
      ensures |last| == 16
      ensures |plaintext| != 16 ==> r == None && last == old(last)
      ensures |plaintext| == 16 ==> r == Some(last) && last == Cipher(aes.key, XorBlocks(plaintext, old(last)))
    {
      hide Cipher;
      if |plaintext| != 16 {
        return None;
      }
      var c := aes.Encrypt(XorBlocks(plaintext, last));
      last := c.value;
      return c;
    }

    method Decrypt(ciphertext: seq<bv8>) returns (r: Option<seq<bv8>>)
      requires aes.Valid() && |last| == 16
      modifies this
      ensures |last| == 16
      ensures |ciphertext| != 16 ==> r == None && last == old(last)
      ensures |ciphertext| == 16 ==>
                r == Some(XorBlocks(InvCipher(aes.key, ciphertext), old(last))) && last == ciphertext
    {
      hide InvCipher;
      if |ciphertext| != 16 {
        return None;
      }
      var p := aes.Decrypt(ciphertext);
      r := Some(XorBlocks(p.value, last));
      last := ciphertext;
    }
  }

  /** The blocks of the padded firmware: fifteen zeros are added, and an incomplete last
      block is dropped. */
  function PaddedBlocks(firmware: seq<bv8>): seq<Bytes16> {
    var padded := firmware + ZeroBytes(15);
    seq(|padded| / 16, i requires 0 <= i < |padded| / 16 => padded[16 * i..16 * i + 16])
  }

  function Joined(blocks: seq<Bytes16>): (s: seq<bv8>)
    ensures |s| == 16 * |blocks|
  {
    if blocks == [] then [] else Joined(blocks[..|blocks| - 1]) + blocks[|blocks| - 1]
  }

  lemma {:induction false} JoinedBlocks(s: seq<bv8>, blocks: seq<Bytes16>)
    requires 16 * |blocks| <= |s| && forall i :: 0 <= i < |blocks| ==> blocks[i] == s[16 * i..16 * i + 16]
    ensures Joined(blocks) == s[..16 * |blocks|]
  {
    if blocks != [] {
      JoinedBlocks(s, blocks[..|blocks| - 1]);
    }
  }

  /** The encryption loop of `flash_firmware`, with an all-zero initial vector. */
  method EncryptFirmware(aes: AES, firmware: seq<bv8>) returns (r: seq<bv8>)
    requires aes.Valid()
    ensures r == Joined(ChainEncrypt(aes.key, ZeroBytes(16), PaddedBlocks(firmware)))
    ensures |r| == (|firmware| + 15) / 16 * 16
    ensures forall i | 0 <= i < |r| / 16 :: EncryptedBlock(aes.key, firmware, r, i)
  {
    hide Cipher;
    var enc := new Chain(aes, ZeroBytes(16));
    var blocks := PaddedBlocks(firmware);
    ghost var done: seq<Bytes16> := [];
    r := [];
    var i := 0;
    while i < |blocks|
      invariant 0 <= i <= |blocks| && enc.aes == aes
      invariant done == ChainEncrypt(aes.key, ZeroBytes(16), blocks[..i])
      invariant enc.last == LastOr(ZeroBytes(16), done) && r == Joined(done)
    {
      ChainEncryptAppend(aes.key, ZeroBytes(16), blocks[..i], blocks[i]);
      assert blocks[..i] + [blocks[i]] == blocks[..i + 1];
      var c := enc.Encrypt(blocks[i]);
      done := done + [c.value];
      assert done[..|done| - 1] == ChainEncrypt(aes.key, ZeroBytes(16), blocks[..i]);
      r := r + c.value;
      i := i + 1;
    }
    assert blocks[..i] == blocks;
    FirmwareChained(aes.key, firmware, r);
  }

  /** What goes into the cipher for block i: byte by byte the firmware, zeros beyond its end,
      exclusive-or the encrypted block before. */
  function Chained(firmware: seq<bv8>, r: seq<bv8>, i: nat): Bytes16
    requires 16 * i <= |r|
  {
    seq(16, j requires 0 <= j < 16 =>
      (if 16 * i + j < |firmware| then firmware[16 * i + j] else 0) ^ (if i == 0 then 0 else r[16 * i - 16 + j]))
  }

  ghost predicate EncryptedBlock(key: Key, firmware: seq<bv8>, r: seq<bv8>, i: nat)
    requires i < |r| / 16
  {
    hide Cipher;
    r[16 * i..16 * i + 16] == Cipher(key, Chained(firmware, r, i))
  }

  lemma {:induction false} ChainAt(key: Key, iv: Bytes16, ps: seq<Bytes16>, i: nat)
    requires i < |ps|
    ensures var cs := ChainEncrypt(key, iv, ps);
            cs[i] == Cipher(key, XorBlocks(ps[i], if i == 0 then iv else cs[i - 1]))
    decreases i
  {
    hide Cipher, XorBlocks;
    if i > 0 {
      ChainAt(key, Cipher(key, XorBlocks(ps[0], iv)), ps[1..], i - 1);
    }
  }

  lemma {:induction false} JoinedAt(blocks: seq<Bytes16>, i: nat)
    requires i < |blocks|
    ensures Joined(blocks)[16 * i..16 * i + 16] == blocks[i]
    decreases |blocks|
  {
    if i < |blocks| - 1 {
      JoinedAt(blocks[..|blocks| - 1], i);
    }
  }

  /** Each block of the result is the cipher of what is chained there. */
  lemma FirmwareChained(key: Key, firmware: seq<bv8>, r: seq<bv8>)
    requires r == Joined(ChainEncrypt(key, ZeroBytes(16), PaddedBlocks(firmware)))
    ensures |r| == (|firmware| + 15) / 16 * 16
    ensures forall i | 0 <= i < |r| / 16 :: EncryptedBlock(key, firmware, r, i)
  {
    hide Cipher, ChainEncrypt, Joined;
    var ps := PaddedBlocks(firmware);
    var cs := ChainEncrypt(key, ZeroBytes(16), ps);
    forall i | 0 <= i < |r| / 16
      ensures EncryptedBlock(key, firmware, r, i)
    {
      ChainAt(key, ZeroBytes(16), ps, i);
      JoinedAt(cs, i);
      if i > 0 {
        JoinedAt(cs, i - 1);
      }
      ChainedIs(firmware, r, i, if i == 0 then ZeroBytes(16) else cs[i - 1]);
    }
  }

  lemma ChainedIs(firmware: seq<bv8>, r: seq<bv8>, i: nat, before: Bytes16)
    requires i < |PaddedBlocks(firmware)| && 16 * i <= |r|
    requires before == if i == 0 then ZeroBytes(16) else r[16 * i - 16..16 * i]
    ensures XorBlocks(PaddedBlocks(firmware)[i], before) == Chained(firmware, r, i)
  {
    var (a, b) := (XorBlocks(PaddedBlocks(firmware)[i], before), Chained(firmware, r, i));
    forall j | 0 <= j < 16
      ensures a[j] == b[j]
    {
    }
  }

  /** Decrypting what was flashed gives the firmware followed by fewer than 16 zeros. */
  lemma FirmwareDecrypts(key: Key, firmware: seq<bv8>) returns (pad: nat)
    ensures pad < 16 && (|firmware| + pad) % 16 == 0
    ensures Joined(ChainDecrypt(key, ZeroBytes(16), ChainEncrypt(key, ZeroBytes(16), PaddedBlocks(firmware))))
            == firmware + ZeroBytes(pad)
  {
    hide ChainDecrypt, ChainEncrypt;
    var padded := firmware + ZeroBytes(15);
    var blocks := PaddedBlocks(firmware);
    ChainInverts(key, ZeroBytes(16), blocks);
    JoinedBlocks(padded, blocks);
    pad := 16 * |blocks| - |firmware|;
    assert padded[..16 * |blocks|] == firmware + ZeroBytes(pad);
  }
}
