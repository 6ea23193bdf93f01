/** The AES class of tools/kflash.py. */
module Aes {
  import opened AesTables
  import opened Gf256
  import opened Fips197
  import opened AesTableFacts
  import opened Wrappers

  /** The lists of round keys, one quad per round. */
  ghost predicate Shaped(key: Key, ke: seq<Quad>, kd: seq<Quad>) {
    |ke| == |kd| == Rounds(key) + 1
  }

  /** The first n words of the expanded key are in both lists, in the second from the end. */
  ghost predicate Filled(key: Key, ke: seq<Quad>, kd: seq<Quad>, n: nat)
    requires Shaped(key, ke, kd)
  {
    forall i: nat :: i < n <= 4 * (Rounds(key) + 1) ==>
      ke[i / 4][i % 4] == KeyWord(key, i) && kd[Rounds(key) - i / 4][i % 4] == KeyWord(key, i)
  }

  /** Copy words into both lists until the words, or the lists, are used up. */
  method StoreWords(key: Key, ke0: seq<Quad>, kd0: seq<Quad>, words: seq<bv32>, base: nat)
    returns (ke: seq<Quad>, kd: seq<Quad>, t: nat)
    requires Shaped(key, ke0, kd0) && base <= 4 * (Rounds(key) + 1) && Filled(key, ke0, kd0, base)
    requires forall k: nat :: k < |words| ==> words[k] == KeyWord(key, base + k)
    ensures Shaped(key, ke, kd) && Filled(key, ke, kd, t)
    ensures t == if base + |words| < 4 * (Rounds(key) + 1) then base + |words| else 4 * (Rounds(key) + 1)
  {
    hide KeyWord;
    ke, kd, t := ke0, kd0, base;
    var rounds := |ke| - 1;
    var j := 0;
    while j < |words| && t < 4 * (rounds + 1)
      invariant 0 <= j <= |words| && t == base + j <= 4 * (rounds + 1)
      invariant Shaped(key, ke, kd) && Filled(key, ke, kd, t)
    {
      ke := ke[t / 4 := ke[t / 4][t % 4 := words[j]]];
      kd := kd[rounds - t / 4 := kd[rounds - t / 4][t % 4 := words[j]]];
      j := j + 1;
      t := t + 1;
    }
  }

  /** Key expansion, section 5.2: `tk` holds the last Nk words made so far. */
  method ExpandKey(key: Key) returns (ke: seq<Quad>, kd: seq<Quad>)
    ensures Shaped(key, ke, kd) && Filled(key, ke, kd, 4 * (Rounds(key) + 1))
    ensures |ke| == |kd| == if |key| == 16 then 11 else if |key| == 24 then 13 else 15
  {
    hide KeyWord, KeyColumn, Turn;
    var kc := |key| / 4;
    var rounds := if |key| == 16 then 10 else if |key| == 24 then 12 else 14;
    ke := seq(rounds + 1, _ => [0, 0, 0, 0]);
    kd := seq(rounds + 1, _ => [0, 0, 0, 0]);
    assert Filled(key, ke, kd, 0);
    hide Filled;
    var tk := seq(kc, i requires 0 <= i < kc => KeyColumn(key, i));
    forall k: nat | k < kc ensures tk[k] == KeyWord(key, k) { FirstKeyWords(key, k); }
    var t;
    ke, kd, t := StoreWords(key, ke, kd, tk, 0);
    NextTurn(key, 0);
    var rcon := 0;
    while t < 4 * (rounds + 1)
      invariant 0 <= t <= 4 * (rounds + 1) && |tk| == kc && Shaped(key, ke, kd) && Filled(key, ke, kd, t)
      invariant t < 4 * (rounds + 1) ==> t == Turn(key, rcon + 1)
      invariant t < 4 * (rounds + 1) ==> forall k: nat :: k < kc ==> tk[k] == KeyWord(key, Turn(key, rcon) + k)
      decreases 4 * (rounds + 1) - t
    {
      KeySizes(key, rcon);
      NextTurn(key, rcon + 1);
      tk := NextWords(key, tk, rcon);
      ke, kd, t := StoreWords(key, ke, kd, tk, t);
      rcon := rcon + 1;
    }
  }

  /** One turn of the expansion loop: the list moves on by Nk words. */
  method NextWords(key: Key, words: seq<bv32>, rcon: nat) returns (tk: seq<bv32>)
    requires |words| == Nk(key) && rcon < 30
    requires forall k: nat :: k < |words| ==> words[k] == KeyWord(key, Turn(key, rcon) + k)
    ensures |tk| == |words| && forall k: nat :: k < |tk| ==> tk[k] == KeyWord(key, Turn(key, rcon + 1) + k)
  {
    hide KeyWord, S, Byte0, Byte1, Byte2, Byte3, Xor, Word, RoundConstant, Turn;
    var kc := |words|;
    ghost var last, base := Turn(key, rcon), Turn(key, rcon + 1);
    NextTurn(key, rcon);
    tk := words;
    var tt := tk[kc - 1];
    FirstOfRound(key, rcon, tk[0], tt);
    tk := tk[0 := Xor(tk[0], Xor(Word(S(Byte2(tt)), S(Byte1(tt)), S(Byte0(tt)), S(Byte3(tt))),
      Word(RoundConstant(rcon), 0, 0, 0)))];
    var i := 1;
    while i < kc
      invariant 1 <= i <= kc && |tk| == kc
      invariant forall k: nat :: k < i ==> tk[k] == KeyWord(key, base + k)
      invariant forall k: nat :: i <= k < kc ==> tk[k] == KeyWord(key, last + k)
    {
      OtherOfRound(key, rcon, i, tk[i], tk[i - 1]);
      if kc == 8 && i == kc / 2 {
        tt := tk[kc / 2 - 1];
        tk := tk[i := Xor(tk[i], Word(S(Byte3(tt)), S(Byte2(tt)), S(Byte1(tt)), S(Byte0(tt))))];
      } else {
        tk := tk[i := Xor(tk[i], tk[i - 1])];
      }
      i := i + 1;
    }
  }

  /** The inner decryption keys go through InvMixColumns, section 5.3.5. */
  method InvertKeys(key: Key, kd0: seq<Quad>) returns (kd: seq<Quad>)
    requires |kd0| == Rounds(key) + 1
    requires forall r: nat :: r < |kd0| ==> kd0[r] == RoundKey(key, Rounds(key) - r)
    ensures |kd| == Rounds(key) + 1
    ensures forall r: nat :: r < |kd| ==> kd[r] == DecKey(key, r)
  {
    hide RoundKey, InvMixColumns;
    kd := kd0;
    var rounds := |kd| - 1;
    var r := 1;
    while r < rounds
      invariant 1 <= r <= rounds && |kd| == rounds + 1
      invariant forall q: nat :: q < |kd| ==> kd[q] == if q < r then DecKey(key, q) else RoundKey(key, rounds - q)
    {
      var row := InvertRow(kd[r]);
      kd := kd[r := row];
      r := r + 1;
    }
  }

  method InvertRow(row: Quad) returns (inverted: Quad)
    ensures inverted == InvMixColumns(row)
  {
    hide InvMixColumn, U1, U2, U3, U4, Byte0, Byte1, Byte2, Byte3, Xor, Word;
    inverted := row;
    var j := 0;
    while j < 4
      invariant 0 <= j <= 4
      invariant forall c :: 0 <= c < 4 ==> inverted[c] == if c < j then InvMixColumn(row[c]) else row[c]
    {
      var tt := inverted[j];
      KeyLookups(Byte3(tt), Byte2(tt), Byte1(tt), Byte0(tt));
      WordOfBytes(tt);
      inverted := inverted[j := Xor(Xor(Xor(U1(Byte3(tt)), U2(Byte2(tt))), U3(Byte1(tt))), U4(Byte0(tt)))];
      j := j + 1;
    }
  }

  lemma FilledRow(key: Key, ke: seq<Quad>, kd: seq<Quad>, r: nat)
    requires Shaped(key, ke, kd) && Filled(key, ke, kd, 4 * (Rounds(key) + 1)) && r < |ke|
    ensures ke[r] == RoundKey(key, r) && kd[Rounds(key) - r] == RoundKey(key, r)
  {
    hide KeyWord, Filled;
    FilledWord(key, ke, kd, r, 0);
    FilledWord(key, ke, kd, r, 1);
    FilledWord(key, ke, kd, r, 2);
    FilledWord(key, ke, kd, r, 3);
    hide Rounds;
  }

  lemma FilledWord(key: Key, ke: seq<Quad>, kd: seq<Quad>, r: nat, c: nat)
    requires Shaped(key, ke, kd) && Filled(key, ke, kd, 4 * (Rounds(key) + 1)) && r < |ke| && c < 4
    ensures ke[r][c] == KeyWord(key, 4 * r + c) && kd[Rounds(key) - r][c] == KeyWord(key, 4 * r + c)
  {
    hide KeyWord, Rounds;
    assert (4 * r + c) / 4 == r && (4 * r + c) % 4 == c;
  }

  lemma FilledRows(key: Key, ke: seq<Quad>, kd: seq<Quad>)
    requires Shaped(key, ke, kd) && Filled(key, ke, kd, 4 * (Rounds(key) + 1))
    ensures forall r: nat :: r < |ke| ==> ke[r] == RoundKey(key, r)
    ensures forall r: nat :: r < |kd| ==> kd[r] == RoundKey(key, Rounds(key) - r)
  {
    hide KeyWord, Rounds, RoundKey, Filled;
    forall r: nat | r < |ke|
      ensures ke[r] == RoundKey(key, r)
    {
      FilledRow(key, ke, kd, r);
    }
    forall r: nat | r < |kd|
      ensures kd[r] == RoundKey(key, Rounds(key) - r)
    {
      FilledRow(key, ke, kd, Rounds(key) - r);
    }
  }

  class AES {
    const key: Key
    const rounds: nat
    const ke: seq<Quad>
    const kd: seq<Quad>

    /** The encryption keys are the expanded key; the decryption keys are those of the
        equivalent inverse cipher. */
    ghost predicate Valid() {
      && rounds == Rounds(key) && Shaped(key, ke, kd)
      && (forall r: nat :: r <= rounds ==> ke[r] == RoundKey(key, r))
      && (forall r: nat :: r <= rounds ==> kd[r] == DecKey(key, r))
    }

    constructor (key: Key)
      ensures Valid() && this.key == key
    {
      hide Filled, RoundKey, DecKey;
      var ke, kd := ExpandKey(key);
      FilledRows(key, ke, kd);
      kd := InvertKeys(key, kd);
      this.key, this.rounds, this.ke, this.kd := key, |ke| - 1, ke, kd;
    }

    /** `encrypt`: table lookups for all rounds but the last. */
    method Encrypt(plaintext: seq<bv8>) returns (r: Option<seq<bv8>>)
      requires Valid()
      ensures |plaintext| != 16 ==> r == None
      ensures |plaintext| == 16 ==> r == Some(Cipher(key, plaintext))
    {
      hide KeyWord, S, T1, T2, T3, T4, Byte0, Byte1, Byte2, Byte3, Xor, Word, MixColumn, SubBytes, ShiftRows,
        RoundKey, DecKey, Add;
      if |plaintext| != 16 {
        return None;
      }
      ghost var p := Columns(plaintext);
      var t: Quad := [Xor(KeyColumn(plaintext, 0), ke[0][0]), Xor(KeyColumn(plaintext, 1), ke[0][1]),
                      Xor(KeyColumn(plaintext, 2), ke[0][2]), Xor(KeyColumn(plaintext, 3), ke[0][3])];
      var round := 1;
      while round < rounds
        invariant 1 <= round <= rounds
        invariant t == EncState(key, p, round - 1)
      {
        t := EncryptRound(t, round);
        round := round + 1;
      }
      var bytes := LastEncryptRound(t);
      return Some(bytes);
    }

    method EncryptRound(t: Quad, round: nat) returns (a: Quad)
      requires Valid() && round <= rounds
      ensures a == AddRoundKey(MixColumns(ShiftRows(SubBytes(t))), RoundKey(key, round))
    {
      hide KeyWord, S, T1, T2, T3, T4, Byte0, Byte1, Byte2, Byte3, Xor, Word, MixColumn, SubBytes, ShiftRows,
        RoundKey, DecKey;
      a := [0, 0, 0, 0];
      ghost var goal := AddRoundKey(MixColumns(ShiftRows(SubBytes(t))), RoundKey(key, round));
      var i := 0;
      while i < 4
        invariant 0 <= i <= 4
        invariant forall k :: 0 <= k < i ==> a[k] == goal[k]
      {
        var (b, c, d) := (t[(i + 1) % 4], t[(i + 2) % 4], t[(i + 3) % 4]);
        SubShiftColumn(t, i);
        EncryptionLookups(Byte3(t[i]), Byte2(b), Byte1(c), Byte0(d));
        a := a[i := Xor(Xor(Xor(Xor(T1(Byte3(t[i])), T2(Byte2(b))), T3(Byte1(c))), T4(Byte0(d))), ke[round][i])];
        i := i + 1;
      }
    }

    method LastEncryptRound(t: Quad) returns (result: seq<bv8>)
      requires Valid()
      ensures result == ToBytes(AddRoundKey(ShiftRows(SubBytes(t)), RoundKey(key, rounds)))
    {
      hide KeyWord, S, Byte0, Byte1, Byte2, Byte3, Xor, Word, SubBytes, ShiftRows, RoundKey, DecKey, Add;
      result := [];
      ghost var goal := AddRoundKey(ShiftRows(SubBytes(t)), RoundKey(key, rounds));
      var i := 0;
      while i < 4
        invariant 0 <= i <= 4
        invariant result == ToBytes(goal)[..4 * i]
      {
        var (b, c, d) := (t[(i + 1) % 4], t[(i + 2) % 4], t[(i + 3) % 4]);
        var tt := ke[rounds][i];
        SubShiftColumn(t, i);
        LastRoundBytes(S(Byte3(t[i])), S(Byte2(b)), S(Byte1(c)), S(Byte0(d)), tt);
        result := result + [Add(S(Byte3(t[i])), Byte3(tt)), Add(S(Byte2(b)), Byte2(tt)), Add(S(Byte1(c)),
          Byte1(tt)), Add(S(Byte0(d)), Byte0(tt))];
        BytesByColumn(goal, i);
        i := i + 1;
      }
    }

    /** `decrypt`: the same shape, with the inverse tables and the decryption keys. */
    method Decrypt(ciphertext: seq<bv8>) returns (r: Option<seq<bv8>>)
      requires Valid()
      ensures |ciphertext| != 16 ==> r == None
      ensures |ciphertext| == 16 ==> r == Some(InvCipher(key, ciphertext))
    {
      hide KeyWord, InvS, T5, T6, T7, T8, Byte0, Byte1, Byte2, Byte3, Xor, Word, InvMixColumn, InvSubBytes,
        InvShiftRows, RoundKey, DecKey, Add;
      if |ciphertext| != 16 {
        return None;
      }
      ghost var c := Columns(ciphertext);
      var t: Quad := [Xor(KeyColumn(ciphertext, 0), kd[0][0]), Xor(KeyColumn(ciphertext, 1), kd[0][1]),
                      Xor(KeyColumn(ciphertext, 2), kd[0][2]), Xor(KeyColumn(ciphertext, 3), kd[0][3])];
      var round := 1;
      while round < rounds
        invariant 1 <= round <= rounds
        invariant t == DecState(key, c, round - 1)
      {
        t := DecryptRound(t, round);
        round := round + 1;
      }
      var bytes := LastDecryptRound(t);
      return Some(bytes);
    }

    method DecryptRound(t: Quad, round: nat) returns (a: Quad)
      requires Valid() && round <= rounds
      ensures a == AddRoundKey(InvMixColumns(InvShiftRows(InvSubBytes(t))), DecKey(key, round))
    {
      hide KeyWord, InvS, T5, T6, T7, T8, Byte0, Byte1, Byte2, Byte3, Xor, Word, InvMixColumn, InvSubBytes,
        InvShiftRows, RoundKey, DecKey;
      a := [0, 0, 0, 0];
      ghost var goal := AddRoundKey(InvMixColumns(InvShiftRows(InvSubBytes(t))), DecKey(key, round));
      var i := 0;
      while i < 4
        invariant 0 <= i <= 4
        invariant forall k :: 0 <= k < i ==> a[k] == goal[k]
      {
        var (b, c, d) := (t[(i + 3) % 4], t[(i + 2) % 4], t[(i + 1) % 4]);
        InvSubShiftedColumn(t, i);
        DecryptionLookups(Byte3(t[i]), Byte2(b), Byte1(c), Byte0(d));
        a := a[i := Xor(Xor(Xor(Xor(T5(Byte3(t[i])), T6(Byte2(b))), T7(Byte1(c))), T8(Byte0(d))), kd[round][i])];
        i := i + 1;
      }
    }

    method LastDecryptRound(t: Quad) returns (result: seq<bv8>)
      requires Valid()
      ensures result == ToBytes(AddRoundKey(InvShiftRows(InvSubBytes(t)), DecKey(key, rounds)))
    {
      hide KeyWord, InvS, Byte0, Byte1, Byte2, Byte3, Xor, Word, InvSubBytes, InvShiftRows, RoundKey, DecKey, Add;
      result := [];
      ghost var goal := AddRoundKey(InvShiftRows(InvSubBytes(t)), DecKey(key, rounds));
      var i := 0;
      while i < 4
        invariant 0 <= i <= 4
        invariant result == ToBytes(goal)[..4 * i]
      {
        var (b, c, d) := (t[(i + 3) % 4], t[(i + 2) % 4], t[(i + 1) % 4]);
        var tt := kd[rounds][i];
        InvSubShiftedColumn(t, i);
        LastRoundBytes(InvS(Byte3(t[i])), InvS(Byte2(b)), InvS(Byte1(c)), InvS(Byte0(d)), tt);
        result := result + [Add(InvS(Byte3(t[i])), Byte3(tt)), Add(InvS(Byte2(b)), Byte2(tt)), Add(InvS(Byte1(c)),
          Byte1(tt)), Add(InvS(Byte0(d)), Byte0(tt))];
        BytesByColumn(goal, i);
        i := i + 1;
      }
    }
  }

  /** The class rejects every other key size. */
  method CreateAes(key: seq<bv8>) returns (aes: AES?)
    ensures aes != null <==> KeySize(|key|)
    ensures aes != null ==> aes.Valid() && aes.key == key
    ensures aes != null ==> aes.rounds == if |key| == 16 then 10 else if |key| == 24 then 12 else 14
    ensures aes != null ==> |aes.ke| == |aes.kd| == aes.rounds + 1
  {
    if |key| != 16 && |key| != 24 && |key| != 32 {
      return null;
    }
    aes := new AES(key);
  }

  /** The first word that turn m of the expansion loop makes. */
  function Turn(key: Key, m: nat): nat {
    Nk(key) * m
  }

  lemma NextTurn(key: Key, m: nat)
    ensures Turn(key, 0) == 0 && Turn(key, m + 1) == Turn(key, m) + Nk(key)
  {
  }

  lemma FirstKeyWords(key: Key, k: nat)
    requires k < Nk(key)
    ensures KeyColumn(key, k) == KeyWord(key, k)
  {
  }

  lemma KeySizes(key: Key, rcon: nat)
    requires Turn(key, rcon + 1) < 4 * (Rounds(key) + 1)
    ensures rcon < 10
  {
  }

  lemma Position(n: nat, m: nat, k: nat)
    requires (n == 4 || n == 6 || n == 8) && k < n
    ensures (n * m + k) / n == m && (n * m + k) % n == k
  {
  }

  /** Unfolding the key schedule at a multiple of the key length. */
  lemma KeyWordUnfolds(key: Key, i: nat, m: nat)
    requires i >= Nk(key) && i % Nk(key) == 0 && i / Nk(key) - 1 == m
    ensures KeyWord(key, i) ==
            Xor(KeyWord(key, i - Nk(key)), Xor(SubWord(RotWord(KeyWord(key, i - 1))), Word(PowerOfX(m), 0, 0, 0)))
  {
  }

  /** The first word of a round of the key expansion. */
  lemma FirstOfRound(key: Key, rcon: nat, w: bv32, prev: bv32)
    requires rcon < 30 && Turn(key, rcon + 1) > 0 && w == KeyWord(key, Turn(key, rcon))
             && prev == KeyWord(key, Turn(key, rcon + 1) - 1)
    ensures KeyWord(key, Turn(key, rcon + 1)) ==
            Xor(w, Xor(Word(S(Byte2(prev)), S(Byte1(prev)), S(Byte0(prev)), S(Byte3(prev))),
              Word(RoundConstant(rcon), 0, 0, 0)))
  {
    hide S, Byte0, Byte1, Byte2, Byte3, Xor, Word, RoundConstant, KeyWord, PowerOfX;
    var n := Nk(key);
    Position(n, rcon + 1, 0);
    NextTurn(key, rcon);
    RoundConstantIsPower(rcon);
    BytesOfWord(Byte2(prev), Byte1(prev), Byte0(prev), Byte3(prev));
    KeyWordUnfolds(key, Turn(key, rcon + 1), rcon);
  }

  lemma OtherOfRound(key: Key, rcon: nat, k: nat, w: bv32, prev: bv32)
    requires 1 <= k < Nk(key)
    requires w == KeyWord(key, Turn(key, rcon) + k) && prev == KeyWord(key, Turn(key, rcon + 1) + k - 1)
    ensures KeyWord(key, Turn(key, rcon + 1) + k) == Xor(w, if Nk(key) == 8 && k == 4 then SubWord(prev) else prev)
  {
    hide S, Byte0, Byte1, Byte2, Byte3, Xor, Word;
    var n := Nk(key);
    Position(n, rcon + 1, k);
    var i := n * (rcon + 1) + k;
    assert i - n == n * rcon + k;
  }

  lemma LastRoundBytes(a: bv8, b: bv8, c: bv8, d: bv8, tt: bv32)
    ensures WordBytes(Xor(Word(a, b, c, d), tt)) == [Add(a, Byte3(tt)), Add(b, Byte2(tt)), Add(c, Byte1(tt)), Add(d,
            Byte0(tt))]
  {
  }

  lemma BytesByColumn(q: Quad, i: nat)
    requires i < 4
    ensures ToBytes(q)[..4 * (i + 1)] == ToBytes(q)[..4 * i] + WordBytes(q[i])
    ensures ToBytes(q)[..16] == ToBytes(q)
  {
  }

  /** Decryption with a key inverts encryption with it, method for method. */
  method EncryptThenDecrypt(aes: AES, block: seq<bv8>) returns (r: Option<seq<bv8>>)
    requires aes.Valid() && |block| == 16
    ensures r == Some(block)
  {
    hide Cipher, InvCipher;
    var c := aes.Encrypt(block);
    InvCipherInverts(aes.key, block);
    r := aes.Decrypt(c.value);
  }
}
