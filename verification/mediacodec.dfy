/** Media encryption of the WeChat channel (weixin.rs): AES-128 in ECB mode with PKCS #7 padding
    (section 6.3 of RFC 5652), and the two spellings of a key. */
module MediaCodec {
  import opened Basics
  import opened Base64

  const BLOCK := 16

  /** A keyed block cipher; AES itself is any such pair of functions. */
  datatype Cipher = Cipher(encrypt: (seq<Byte>, seq<Byte>) -> seq<Byte>, decrypt: (seq<Byte>, seq<Byte>) -> seq<Byte>)

  ghost predicate IsBlockCipher(c: Cipher) {
    forall key: seq<Byte>, block: seq<Byte> :: |block| == BLOCK ==>
      |c.encrypt(key, block)| == BLOCK && |c.decrypt(key, block)| == BLOCK &&
      c.decrypt(key, c.encrypt(key, block)) == block
  }

  // ---- Keys ----

  function AsChars(b: seq<Byte>): (s: seq<char>)
    ensures |s| == |b| && forall i :: 0 <= i < |b| ==> s[i] == b[i] as char
  {
    if b == [] then [] else [b[0] as char] + AsChars(b[1..])
  }

  /** ASCII text as bytes. */
  function AsBytes(s: seq<char>): (b: seq<Byte>)
    requires AllHex(s)
    ensures |b| == |s| && forall i :: 0 <= i < |s| ==> b[i] as char == s[i]
  {
    if s == [] then []
    else
      assert s[0] in s;
      [s[0] as int] + AsBytes(s[1..])
  }

  function ParseAesKey(text: seq<char>): Option<seq<Byte>> {
    match Decode(text)
    case None => None
    case Some(decoded) =>
      if |decoded| == BLOCK then Some(decoded)
      else if |decoded| == 2 * BLOCK && AllHex(AsChars(decoded)) then HexDecode(AsChars(decoded))
      else None
  }

  lemma AsCharsAsBytes(s: seq<char>)
    requires AllHex(s)
    ensures AsChars(AsBytes(s)) == s
  {
  }

  /** A key sent as the base64 of its bytes, or as the base64 of its hex text, is read as the same key. */
  lemma BothSpellingsParse(key: seq<Byte>)
    requires |key| == BLOCK
    ensures ParseAesKey(Encode(key)) == Some(key)
    ensures AllHex(HexEncode(key)) && ParseAesKey(Encode(AsBytes(HexEncode(key)))) == Some(key)
  {
    DecodeEncode(key);
    HexRoundTrip(key);
    var hex := HexEncode(key);
    DecodeEncode(AsBytes(hex));
    AsCharsAsBytes(hex);
  }

  /** Nothing else is read as a key: a text parses exactly when it encodes 16 bytes, or 32 hex digits. */
  lemma ParsesIff(text: seq<char>)
    ensures ParseAesKey(text).Some? <==>
      exists b: seq<Byte> :: text == Encode(b) && (|b| == BLOCK || (|b| == 2 * BLOCK && AllHex(AsChars(b))))
    ensures ParseAesKey(text).Some? ==> |ParseAesKey(text).value| == BLOCK
  {
    hide Encode, HexDecode;
    if Decode(text).Some? {
      var b := Decode(text).value;
      EncodeDecode(text);
      if |b| == 2 * BLOCK && AllHex(AsChars(b)) {
        HexDecodeTotal(AsChars(b));
      }
    }
    forall b: seq<Byte> | text == Encode(b) ensures Decode(text) == Some(b) {
      DecodeEncode(b);
    }
  }

  // ---- Padding ----

  function Repeat(x: Byte, n: nat): (s: seq<Byte>)
    ensures |s| == n && forall i :: 0 <= i < n ==> s[i] == x
  {
    if n == 0 then [] else [x] + Repeat(x, n - 1)
  }

  function PadLength(n: nat): int {
    BLOCK - n % BLOCK
  }

  function Padded(data: seq<Byte>): seq<Byte> {
    data + Repeat(PadLength(|data|), PadLength(|data|))
  }

  /** `pkcs7_unpad_safe`: anything that is not properly padded is returned as it is. */
  function Unpadded(data: seq<Byte>): seq<Byte> {
    if data == [] || |data| % BLOCK != 0 then data
    else
      var pad := data[|data| - 1];
      if pad == 0 || pad > BLOCK then data
      else if forall i :: |data| - pad <= i < |data| ==> data[i] == pad then data[..|data| - pad]
      else data
  }

  predicate WellPadded(data: seq<Byte>) {
    data != [] && |data| % BLOCK == 0 && 1 <= data[|data| - 1] <= BLOCK &&
    forall i :: |data| - data[|data| - 1] <= i < |data| ==> data[i] == data[|data| - 1]
  }

  lemma UnpadPad(data: seq<Byte>)
    ensures WellPadded(Padded(data)) && Unpadded(Padded(data)) == data
    ensures |Padded(data)| == (|data| + 1 + 15) / BLOCK * BLOCK
  {
    var p := Padded(data);
    assert p[|p| - 1] == PadLength(|data|);
    assert p[..|data|] == data;
  }

  /** Unpadding removes something exactly from well-padded data, and padding puts the same back. */
  lemma PadUnpadIff(data: seq<Byte>)
    ensures Padded(Unpadded(data)) == data <==> WellPadded(data)
  {
    if WellPadded(data) {
      var pad := data[|data| - 1];
      var rest := Unpadded(data);
      assert |rest| == |data| - pad && PadLength(|rest|) == pad;
      assert Padded(rest) == data;
    } else {
      UnpadPad(Unpadded(data));
    }
  }

  // ---- Blocks ----

  function MapBlocks(f: seq<Byte> -> seq<Byte>, data: seq<Byte>): seq<Byte> {
    if |data| < BLOCK then data else f(data[..BLOCK]) + MapBlocks(f, data[BLOCK..])
  }

  lemma {:induction false} MapBlocksSnoc(f: seq<Byte> -> seq<Byte>, data: seq<Byte>, block: seq<Byte>)
    requires |data| % BLOCK == 0 && |block| == BLOCK
    ensures MapBlocks(f, data + block) == MapBlocks(f, data) + f(block)
  {
    if data == [] {
      assert data + block == block && block[..BLOCK] == block && block[BLOCK..] == [];
      assert f(block) + [] == f(block) && [] + f(block) == f(block);
    } else {
      assert (data + block)[..BLOCK] == data[..BLOCK] && (data + block)[BLOCK..] == data[BLOCK..] + block;
      MapBlocksSnoc(f, data[BLOCK..], block);
      var head, rest := f(data[..BLOCK]), MapBlocks(f, data[BLOCK..]);
      assert head + (rest + f(block)) == (head + rest) + f(block);
    }
  }

  ghost predicate KeepsSize(f: seq<Byte> -> seq<Byte>) {
    forall block: seq<Byte> :: |block| == BLOCK ==> |f(block)| == BLOCK
  }

  predicate WholeBlocks(n: nat) {
    n % BLOCK == 0
  }

  lemma RoomForBlock(i: nat, n: nat)
    requires WholeBlocks(i) && WholeBlocks(n) && i < n
    ensures i + BLOCK <= n && WholeBlocks(i + BLOCK)
  {
  }

  /** One pass over the buffer, block by block and in place. */
  method TransformBlocks(f: seq<Byte> -> seq<Byte>, buffer: array<Byte>)
    requires WholeBlocks(buffer.Length) && KeepsSize(f)
    modifies buffer
    ensures buffer[..] == MapBlocks(f, old(buffer[..]))
  {
    hide MapBlocks, KeepsSize, WholeBlocks;
    ghost var data, done := buffer[..], [];
    NoBlocks(f, data);
    var i: nat := 0;
    while i < buffer.Length
      invariant 0 <= i <= buffer.Length && WholeBlocks(i)
      invariant |done| == i && done == MapBlocks(f, data[..i]) && buffer[..] == done + data[i..]
    {
      RoomForBlock(i, buffer.Length);
      BlockStep(f, data, done, i);
      ghost var whole := buffer[..];
      var block := buffer[i..i + BLOCK];
      assert block == whole[i..i + BLOCK];
      var image := f(block);
      OverwriteBlock(buffer, i, image);
      done := done + image;
      i := i + BLOCK;
    }
    assert data[..i] == data && data[i..] == [] && done + [] == done;
  }

  method OverwriteBlock(buffer: array<Byte>, i: nat, image: seq<Byte>)
    requires |image| == BLOCK && i + BLOCK <= buffer.Length
    modifies buffer
    ensures buffer[..] == old(buffer[..])[..i] + image + old(buffer[..])[i + BLOCK..]
  {
    forall k | 0 <= k < BLOCK {
      buffer[i + k] := image[k];
    }
  }

  lemma NoBlocks(f: seq<Byte> -> seq<Byte>, data: seq<Byte>)
    ensures MapBlocks(f, data[..0]) == [] && [] + data[0..] == data && WholeBlocks(0)
  {
  }

  lemma BlockStep(f: seq<Byte> -> seq<Byte>, data: seq<Byte>, done: seq<Byte>, i: nat)
    requires WholeBlocks(i) && i + BLOCK <= |data| && |done| == i && done == MapBlocks(f, data[..i]) && KeepsSize(f)
    ensures var whole, block := done + data[i..], data[i..i + BLOCK];
            && whole[i..i + BLOCK] == block && |f(block)| == BLOCK
            && whole[..i] + f(block) + whole[i + BLOCK..] == (done + f(block)) + data[i + BLOCK..]
            && done + f(block) == MapBlocks(f, data[..i + BLOCK])
  {
    hide MapBlocks;
    var whole, block := done + data[i..], data[i..i + BLOCK];
    assert whole[..i] == done && whole[i + BLOCK..] == data[i + BLOCK..];
    MapBlocksSnoc(f, data[..i], block);
    assert data[..i] + block == data[..i + BLOCK];
  }

  // ---- Encryption and decryption ----

  function Encrypted(c: Cipher, data: seq<Byte>, keyText: seq<char>): seq<Byte> {
    match ParseAesKey(keyText)
    case None => data
    case Some(key) => MapBlocks(Forward(c, key), Padded(data))
  }

  function Forward(c: Cipher, key: seq<Byte>): seq<Byte> -> seq<Byte> {
    (block: seq<Byte>) => c.encrypt(key, block)
  }

  function Backward(c: Cipher, key: seq<Byte>): seq<Byte> -> seq<Byte> {
    (block: seq<Byte>) => c.decrypt(key, block)
  }

  function Decrypted(c: Cipher, data: seq<Byte>, keyText: seq<char>): seq<Byte> {
    match ParseAesKey(keyText)
    case None => data
    case Some(key) => if |data| % BLOCK != 0 then data else Unpadded(MapBlocks(Backward(c, key), data))
  }

  method EncryptAesEcb(c: Cipher, data: seq<Byte>, keyText: seq<char>) returns (out: seq<Byte>)
    requires IsBlockCipher(c)
    ensures out == Encrypted(c, data, keyText)
  {
    var key := ParseAesKey(keyText);
    if key.None? {
      return data;
    }
    var padded := Padded(data);
    var buffer := new Byte[|padded|](i requires 0 <= i < |padded| => padded[i]);
    assert buffer[..] == padded;
    UnpadPad(data);
    TransformBlocks(Forward(c, key.value), buffer);
    out := buffer[..];
  }

  method DecryptAesEcb(c: Cipher, data: seq<Byte>, keyText: seq<char>) returns (out: seq<Byte>)
    requires IsBlockCipher(c)
    ensures out == Decrypted(c, data, keyText)
  {
    var key := ParseAesKey(keyText);
    if key.None? {
      return data;
    }
    if |data| % BLOCK != 0 {
      return data;
    }
    var buffer := new Byte[|data|](i requires 0 <= i < |data| => data[i]);
    assert buffer[..] == data;
    TransformBlocks(Backward(c, key.value), buffer);
    out := Unpadded(buffer[..]);
  }

  lemma {:induction false} BlocksInvert(c: Cipher, key: seq<Byte>, data: seq<Byte>)
    requires IsBlockCipher(c) && |data| % BLOCK == 0
    ensures |MapBlocks(Forward(c, key), data)| == |data|
    ensures MapBlocks(Backward(c, key), MapBlocks(Forward(c, key), data)) == data
  {
    if data != [] {
      var first, rest := data[..BLOCK], data[BLOCK..];
      var image := c.encrypt(key, first);
      BlocksInvert(c, key, rest);
      var out := image + MapBlocks(Forward(c, key), rest);
      assert out[..BLOCK] == image && out[BLOCK..] == MapBlocks(Forward(c, key), rest);
      assert data == first + rest;
    }
  }

  /** For every byte string and every key text, valid or not, decrypting an encryption gives back the
      bytes; and with a valid key the ciphertext has the size advertised to the server. */
  lemma DecryptEncrypt(c: Cipher, data: seq<Byte>, keyText: seq<char>)
    requires IsBlockCipher(c)
    ensures Decrypted(c, Encrypted(c, data, keyText), keyText) == data
    ensures ParseAesKey(keyText).Some? ==> |Encrypted(c, data, keyText)| == (|data| + 1 + 15) / BLOCK * BLOCK
  {
    hide Padded, Unpadded, ParseAesKey, MapBlocks;
    if ParseAesKey(keyText).Some? {
      UnpadPad(data);
      BlocksInvert(c, ParseAesKey(keyText).value, Padded(data));
    }
  }

  /** The sender encrypts under one spelling of the key and advertises the other; the receiver still gets the
      bytes. */
  lemma SpellingsDecryptEachOther(c: Cipher, data: seq<Byte>, key: seq<Byte>)
    requires IsBlockCipher(c) && |key| == BLOCK
    ensures AllHex(HexEncode(key))
    ensures Decrypted(c, Encrypted(c, data, Encode(key)), Encode(AsBytes(HexEncode(key)))) == data
  {
    hide ParseAesKey, MapBlocks, Encode, HexEncode, Unpadded, Padded;
    BothSpellingsParse(key);
    DecryptEncrypt(c, data, Encode(key));
  }

  // ---- What the ciphertext is, block by block ----

  function BlockAt(data: seq<Byte>, j: nat): seq<Byte>
    requires BLOCK * (j + 1) <= |data|
  {
    data[BLOCK * j..BLOCK * (j + 1)]
  }

  lemma {:induction false} MappedBlocks(f: seq<Byte> -> seq<Byte>, data: seq<Byte>, j: nat)
    requires |data| % BLOCK == 0 && BLOCK * (j + 1) <= |data| && KeepsSize(f)
    ensures |MapBlocks(f, data)| == |data| && BlockAt(MapBlocks(f, data), j) == f(BlockAt(data, j))
  {
    var rest := data[BLOCK..];
    var image := f(data[..BLOCK]);
    assert |image| == BLOCK;
    MappedLength(f, rest);
    if j > 0 {
      MappedBlocks(f, rest, j - 1);
      assert BlockAt(rest, j - 1) == BlockAt(data, j);
      assert BlockAt(image + MapBlocks(f, rest), j) == BlockAt(MapBlocks(f, rest), j - 1);
    } else {
      assert BlockAt(data, 0) == data[..BLOCK] && BlockAt(image + MapBlocks(f, rest), 0) == image;
    }
  }

  lemma {:induction false} MappedLength(f: seq<Byte> -> seq<Byte>, data: seq<Byte>)
    requires |data| % BLOCK == 0 && KeepsSize(f)
    ensures |MapBlocks(f, data)| == |data|
  {
    if data != [] {
      MappedLength(f, data[BLOCK..]);
    }
  }

  /** With a readable key the ciphertext is, block by block, the cipher's image of the data followed by its
      padding: as many bytes as are missing to a full block, each of that value. */
  lemma CipherBlocks(c: Cipher, data: seq<Byte>, keyText: seq<char>, padded: seq<Byte>, j: nat)
    requires IsBlockCipher(c) && ParseAesKey(keyText).Some?
    requires |data| < |padded| <= |data| + 16 && |padded| % 16 == 0 && padded[..|data|] == data
    requires forall i :: |data| <= i < |padded| ==> padded[i] == |padded| - |data|
    requires 16 * (j + 1) <= |padded|
    ensures |Encrypted(c, data, keyText)| == |padded|
    ensures BlockAt(Encrypted(c, data, keyText), j) == c.encrypt(ParseAesKey(keyText).value, BlockAt(padded, j))
  {
    hide ParseAesKey, MapBlocks;
    UnpadPad(data);
    assert padded == Padded(data);
    var f := Forward(c, ParseAesKey(keyText).value);
    assert KeepsSize(f);
    MappedBlocks(f, padded, j);
  }

  /** And a ciphertext of whole blocks is decrypted block by block before its padding goes. */
  lemma PlainBlocks(c: Cipher, data: seq<Byte>, keyText: seq<char>) returns (plain: seq<Byte>)
    requires IsBlockCipher(c) && ParseAesKey(keyText).Some? && |data| % 16 == 0
    ensures |plain| == |data| && Decrypted(c, data, keyText) == Unpadded(plain)
    ensures forall j: nat :: 16 * (j + 1) <= |data| ==>
      BlockAt(plain, j) == c.decrypt(ParseAesKey(keyText).value, BlockAt(data, j))
  {
    hide ParseAesKey, MapBlocks, Unpadded;
    var f := Backward(c, ParseAesKey(keyText).value);
    assert KeepsSize(f);
    plain := MapBlocks(f, data);
    MappedLength(f, data);
    forall j: nat | 16 * (j + 1) <= |data|
      ensures BlockAt(plain, j) == c.decrypt(ParseAesKey(keyText).value, BlockAt(data, j))
    {
      MappedBlocks(f, data, j);
    }
  }

  /** Unreadable keys and broken ciphertexts leave the data as it is. */
  lemma UnreadableIsUnchanged(c: Cipher, data: seq<Byte>, keyText: seq<char>)
    ensures ParseAesKey(keyText).None? ==> Encrypted(c, data, keyText) == data && Decrypted(c, data, keyText) == data
    ensures |data| % 16 != 0 ==> Decrypted(c, data, keyText) == data
  {
  }
}
