/**
 The binary envelope: four bytes of key length, the wrapped key, a 12-byte nonce, the
 sealed data.  KMS and AES-GCM are parameters; all that is assumed of them is that they
 undo themselves.
 */
module Envelope {
  import opened Options
  import opened Domain

  type Bytes = seq<Byte>
  type Context = map<string, string>

  const NONCE_SIZE := 12

  const MAX_KEY := 0x1_0000_0000

  datatype Envelope = Envelope(key: Bytes, nonce: Bytes, data: Bytes)

  // ------------------------------------------------------------------ numbers

  /** A number in `size` bytes, the highest first. */
  function ToBytes(n: nat, size: nat): (b: Bytes)
    ensures |b| == size
  {
    if size == 0 then [] else ToBytes(n / 0x100, size - 1) + [n % 0x100]
  }

  function FromBytes(b: Bytes): nat {
    if b == [] then 0 else 0x100 * FromBytes(b[..|b| - 1]) + b[|b| - 1]
  }

  function Limit(size: nat): nat {
    if size == 0 then 1 else 0x100 * Limit(size - 1)
  }

  lemma {:induction false} FromToBytes(n: nat, size: nat)
    requires n < Limit(size)
    ensures FromBytes(ToBytes(n, size)) == n
  {
    if size > 0 {
      FromToBytes(n / 0x100, size - 1);
      assert ToBytes(n, size)[..size - 1] == ToBytes(n / 0x100, size - 1);
    }
  }

  lemma {:induction false} ToFromBytes(b: Bytes)
    ensures FromBytes(b) < Limit(|b|) && ToBytes(FromBytes(b), |b|) == b
  {
    if b != [] {
      ToFromBytes(b[..|b| - 1]);
    }
  }

  function BigEndian(n: nat): (b: Bytes)
    ensures |b| == 4
  {
    ToBytes(n, 4)
  }

  lemma FourBytes()
    ensures Limit(4) == MAX_KEY
  {
    assert Limit(2) == 0x1_0000;
  }

  /** Four bytes and the numbers below 2^32 are the same thing. */
  lemma LengthRoundTrip(n: nat, b: Bytes)
    requires |b| == 4
    ensures n < MAX_KEY ==> FromBytes(BigEndian(n)) == n
    ensures FromBytes(b) < MAX_KEY && BigEndian(FromBytes(b)) == b
  {
    FourBytes();
    if n < MAX_KEY { FromToBytes(n, 4); }
    ToFromBytes(b);
  }

  // ------------------------------------------------------------------- layout

  /** An envelope that can be written down: its key length fits, its nonce has the right size. */
  predicate Printable(e: Envelope) {
    |e.key| < MAX_KEY && |e.nonce| == NONCE_SIZE
  }

  function Print(e: Envelope): Bytes
    requires Printable(e)
  {
    BigEndian(|e.key|) + e.key + e.nonce + e.data
  }

  /** The strings that are not rejected as too short. */
  predicate LongEnough(c: Bytes) {
    |c| >= 4 && |c| >= 4 + FromBytes(c[..4]) + NONCE_SIZE
  }

  function Parse(c: Bytes): Option<Envelope> {
    if !LongEnough(c) then None
    else
      var n := FromBytes(c[..4]);
      Some(Envelope(c[4..4 + n], c[4 + n..4 + n + NONCE_SIZE], c[4 + n + NONCE_SIZE..]))
  }

  /** Reading what was written gives the envelope back. */
  lemma ParsePrint(e: Envelope)
    requires Printable(e)
    ensures Parse(Print(e)) == Some(e)
  {
    var c := Print(e);
    var n := |e.key|;
    assert c[..4] == BigEndian(n);
    LengthRoundTrip(n, c[..4]);
    assert c[4..4 + n] == e.key;
    assert c[4 + n..4 + n + NONCE_SIZE] == e.nonce;
    assert c[4 + n + NONCE_SIZE..] == e.data;
  }

  /** Writing what was read gives the string back, and exactly the strings that are long
      enough can be read. */
  lemma PrintParse(c: Bytes)
    ensures Parse(c).Some? <==> LongEnough(c)
    ensures Parse(c).Some? ==> Printable(Parse(c).value) && Print(Parse(c).value) == c
  {
    if LongEnough(c) {
      LengthRoundTrip(0, c[..4]);
      assert c == c[..4] + c[4..];
    }
  }

  /** So the envelopes and the strings not rejected as too short are one and the same. */
  lemma LayoutIsBijective(c: Bytes)
    ensures LongEnough(c) <==> exists e :: Printable(e) && Print(e) == c
    ensures forall e, f | Printable(e) && Printable(f) && Print(e) == c && Print(f) == c :: e == f
  {
    PrintParse(c);
    forall e | Printable(e) && Print(e) == c ensures Parse(c) == Some(e) {
      ParsePrint(e);
    }
  }

  // ------------------------------------------------------------------- crypto

  /** Key wrapping and sealing; None is an error. */
  datatype Crypto = Crypto(
    wrap: (Bytes, Context) -> Bytes,
    unwrap: (Bytes, Context) -> Option<Bytes>,
    seal: (Bytes, Bytes, Bytes) -> Bytes,
    open: (Bytes, Bytes, Bytes) -> Option<Bytes>)

  /** Unwrapping undoes wrapping of this key, and opening undoes sealing of this text. */
  predicate Invertible(x: Crypto, key: Bytes, ctx: Context, nonce: Bytes, text: Bytes) {
    x.unwrap(x.wrap(key, ctx), ctx) == Some(key) && x.open(key, nonce, x.seal(key, nonce, text)) == Some(text)
  }

  /** An empty context is sent as no context. */
  function Effective(ctx: Option<Context>): Context {
    ctx.GetOr(map[])
  }

  /** Encryption under a data key and a nonce, both random.  A wrapped key too long for its
      length field is an error. */
  function Encrypt(x: Crypto, plaintext: Bytes, ctx: Option<Context>, dataKey: Bytes, nonce: Bytes): Option<Bytes>
    requires |nonce| == NONCE_SIZE
  {
    var key := x.wrap(dataKey, Effective(ctx));
    if |key| >= MAX_KEY then None
    else Some(BigEndian(|key|) + key + nonce + x.seal(dataKey, nonce, plaintext))
  }

  /** What decryption means. */
  function Decrypted(x: Crypto, ciphertext: Bytes, ctx: Option<Context>): Option<Bytes> {
    match Parse(ciphertext)
    case None => None
    case Some(e) =>
      var dataKey := x.unwrap(e.key, Effective(ctx));
      if dataKey.None? then None else x.open(dataKey.value, e.nonce, e.data)
  }

  /** Decryption: go through the envelope with an offset. */
  method Decrypt(x: Crypto, ciphertext: Bytes, ctx: Option<Context>) returns (plaintext: Option<Bytes>)
    ensures plaintext == Decrypted(x, ciphertext, ctx)
  {
    if |ciphertext| < 4 {
      return None;
    }
    var keyLen := FromBytes(ciphertext[..4]);
    var offset := 4;
    if |ciphertext| < offset + keyLen + NONCE_SIZE {
      return None;
    }
    var key := ciphertext[offset..offset + keyLen];
    offset := offset + keyLen;
    var nonce := ciphertext[offset..offset + NONCE_SIZE];
    offset := offset + NONCE_SIZE;
    var data := ciphertext[offset..];
    var dataKey := x.unwrap(key, Effective(ctx));
    if dataKey.None? {
      return None;
    }
    plaintext := x.open(dataKey.value, nonce, data);
  }

  /** Decryption undoes encryption, whatever the key, the nonce and the context. */
  lemma DecryptUndoesEncrypt(x: Crypto, plaintext: Bytes, ctx: Option<Context>, dataKey: Bytes, nonce: Bytes)
    requires |nonce| == NONCE_SIZE && Invertible(x, dataKey, Effective(ctx), nonce, plaintext)
    ensures var c := Encrypt(x, plaintext, ctx, dataKey, nonce);
            && (c.None? <==> |x.wrap(dataKey, Effective(ctx))| >= MAX_KEY)
            && (c.Some? ==> Decrypted(x, c.value, ctx) == Some(plaintext))
  {
    var key := x.wrap(dataKey, Effective(ctx));
    if |key| < MAX_KEY {
      ParsePrint(Envelope(key, nonce, x.seal(dataKey, nonce, plaintext)));
    }
  }

  /** Four bytes as a number, the highest first. */
  function Number(a: int, b: int, c: int, d: int): int {
    0x100_0000 * a + 0x1_0000 * b + 0x100 * c + d
  }

  /** Four bytes are read with the highest first. */
  lemma FourBytesRead(b: Bytes)
    requires |b| == 4
    ensures FromBytes(b) == Number(b[0], b[1], b[2], b[3])
  {
    var three := b[..3];
    var two := three[..2];
    var one := two[..1];
    assert FromBytes(one) == b[0];
    assert FromBytes(two) == Number(0, 0, b[0], b[1]);
    assert FromBytes(three) == Number(0, b[0], b[1], b[2]);
  }

  /** What an encryption is, byte by byte: the length of the wrapped key, the data key wrapped
      under the context that was given, the nonce, and the sealed text. */
  lemma EncryptionBytes(x: Crypto, plaintext: Bytes, ctx: Option<Context>, dataKey: Bytes, nonce: Bytes)
    requires |nonce| == NONCE_SIZE && Encrypt(x, plaintext, ctx, dataKey, nonce).Some?
    ensures var c := Encrypt(x, plaintext, ctx, dataKey, nonce).value;
            var key := x.wrap(dataKey, if ctx.Some? then ctx.value else map[]);
            && |c| == 4 + |key| + 12 + |x.seal(dataKey, nonce, plaintext)|
            && Number(c[0], c[1], c[2], c[3]) == |key|
            && c[4..4 + |key|] == key && c[4 + |key|..16 + |key|] == nonce
            && c[16 + |key|..] == x.seal(dataKey, nonce, plaintext)
  {
    var c := Encrypt(x, plaintext, ctx, dataKey, nonce).value;
    var key := x.wrap(dataKey, Effective(ctx));
    assert c[..4] == BigEndian(|key|);
    LengthRoundTrip(|key|, c[..4]);
    FourBytesRead(c[..4]);
  }

  /** Decryption fails whenever the key is not unwrapped under the context that is given; so a
      text cannot be read under another context than its own if KMS tells them apart. */
  lemma WrongContextFails(x: Crypto, plaintext: Bytes, ctx: Option<Context>, other: Option<Context>, dataKey: Bytes,
                          nonce: Bytes)
    requires |nonce| == NONCE_SIZE && Encrypt(x, plaintext, ctx, dataKey, nonce).Some?
    requires x.unwrap(x.wrap(dataKey, if ctx.Some? then ctx.value else map[]),
                      if other.Some? then other.value else map[]).None?
    ensures Decrypted(x, Encrypt(x, plaintext, ctx, dataKey, nonce).value, other) == None
  {
    ParsePrint(Envelope(x.wrap(dataKey, Effective(ctx)), nonce, x.seal(dataKey, nonce, plaintext)));
  }

  // ----------------------------------------------------- the local key wrapping

  /** Exclusive or of the lowest `bits` bits. */
  function Xor(a: nat, b: nat, bits: nat): nat {
    if bits == 0 then 0
    else 2 * Xor(a / 2, b / 2, bits - 1) + if a % 2 == b % 2 then 0 else 1
  }

  function Power(bits: nat): nat {
    if bits == 0 then 1 else 2 * Power(bits - 1)
  }

  lemma {:induction false} XorBounded(a: nat, b: nat, bits: nat)
    ensures Xor(a, b, bits) < Power(bits)
  {
    if bits > 0 { XorBounded(a / 2, b / 2, bits - 1); }
  }

  lemma {:induction false} XorTwice(a: nat, b: nat, bits: nat)
    requires a < Power(bits)
    ensures Xor(Xor(a, b, bits), b, bits) == a
  {
    if bits > 0 {
      XorTwice(a / 2, b / 2, bits - 1);
      assert Xor(a, b, bits) / 2 == Xor(a / 2, b / 2, bits - 1);
    }
  }

  lemma EightBits()
    ensures Power(8) == 256
  {
    assert Power(4) == 16;
  }

  function XorByte(a: Byte, b: Byte): Byte {
    EightBits();
    XorBounded(a, b, 8);
    Xor(a, b, 8)
  }

  /** Byte by byte with the master key written twice; the shorter of the two decides how far. */
  function XorKey(key: Bytes, master: Bytes): (r: Bytes)
    ensures |r| == if |key| <= 2 * |master| then |key| else 2 * |master|
  {
    var pad := master + master;
    var n := if |key| <= |pad| then |key| else |pad|;
    seq(n, i requires 0 <= i < n => XorByte(key[i], pad[i]))
  }

  /** Bit `i` of a number. */
  function Bit(n: nat, i: nat): nat {
    if i == 0 then n % 2 else Bit(n / 2, i - 1)
  }

  lemma {:induction false} XorBits(a: nat, b: nat, bits: nat, i: nat)
    requires i < bits
    ensures Bit(Xor(a, b, bits), i) == (if Bit(a, i) == Bit(b, i) then 0 else 1)
  {
    if i > 0 {
      XorBits(a / 2, b / 2, bits - 1, i - 1);
      assert Xor(a, b, bits) / 2 == Xor(a / 2, b / 2, bits - 1);
    }
  }

  /** The local wrapping, bit by bit: a bit is set exactly if the key and the master key,
      repeated once, differ in it. */
  lemma LocalWrapBits(key: Bytes, master: Bytes, k: nat, i: nat)
    requires k < |key| && k < 2 * |master| && i < 8
    ensures var m := if k < |master| then master[k] else master[k - |master|];
            Bit(XorKey(key, master)[k], i) == (if Bit(key[k], i) == Bit(m, i) then 0 else 1)
  {
    XorBits(key[k], (master + master)[k], 8, i);
  }

  /** The local wrapping undoes itself exactly for keys no longer than the pad. */
  lemma LocalWrapUndoesItself(key: Bytes, master: Bytes)
    ensures XorKey(XorKey(key, master), master) == key <==> |key| <= 2 * |master|
  {
    var wrapped := XorKey(key, master);
    if |key| <= 2 * |master| {
      forall i | 0 <= i < |key| ensures XorKey(wrapped, master)[i] == key[i] {
        EightBits();
        XorTwice(key[i], (master + master)[i], 8);
      }
    }
  }

  /** The local provider: wrapping by exclusive or, the context unused. */
  function Local(master: Bytes, x: Crypto): Crypto {
    x.(wrap := (k: Bytes, ctx: Context) => XorKey(k, master),
       unwrap := (k: Bytes, ctx: Context) => Some(XorKey(k, master)))
  }

  /** A slice whose bounds may lie outside. */
  function Slice(c: Bytes, from: nat, to: nat): Bytes {
    var lo := if from <= |c| then from else |c|;
    var hi := if to <= |c| then to else |c|;
    if lo <= hi then c[lo..hi] else []
  }

  /** The local reader checks no length: it takes what is there. */
  function LocalParse(c: Bytes): Envelope {
    var n := FromBytes(Slice(c, 0, 4));
    Envelope(Slice(c, 4, 4 + n), Slice(c, 4 + n, 4 + n + NONCE_SIZE), Slice(c, 4 + n + NONCE_SIZE, |c|))
  }

  /** The local reader agrees with the checking one on everything that one accepts; and
      exactly there does it read an envelope that could have been written. */
  lemma LocalParseAgrees(c: Bytes)
    ensures LongEnough(c) ==> Some(LocalParse(c)) == Parse(c)
    ensures LongEnough(c) <==> Printable(LocalParse(c)) && Print(LocalParse(c)) == c
  {
    if LongEnough(c) {
      PrintParse(c);
      var n := 4 + FromBytes(c[..4]) + NONCE_SIZE;
      assert Slice(c, 0, 4) == c[..4] && Slice(c, n, |c|) == c[n..];
    } else if Printable(LocalParse(c)) && Print(LocalParse(c)) == c {
      ParsePrint(LocalParse(c));
    }
  }

  function LocalDecrypted(master: Bytes, x: Crypto, ciphertext: Bytes): Option<Bytes> {
    var e := LocalParse(ciphertext);
    x.open(XorKey(e.key, master), e.nonce, e.data)
  }

  /** With its 32-byte keys the local provider, too, decrypts what it encrypted. */
  lemma LocalDecryptUndoesEncrypt(master: Bytes, x: Crypto, plaintext: Bytes, ctx: Option<Context>, dataKey: Bytes,
                                  nonce: Bytes)
    requires |nonce| == NONCE_SIZE && |master| == 32 && |dataKey| == 32
    requires x.open(dataKey, nonce, x.seal(dataKey, nonce, plaintext)) == Some(plaintext)
    ensures var c := Encrypt(Local(master, x), plaintext, ctx, dataKey, nonce);
            c.Some? && LocalDecrypted(master, x, c.value) == Some(plaintext)
  {
    var e := Envelope(XorKey(dataKey, master), nonce, x.seal(dataKey, nonce, plaintext));
    ParsePrint(e);
    LocalParseAgrees(Print(e));
    LocalWrapUndoesItself(dataKey, master);
  }
}
